/**
 Sessions over the lease: every process is a client of `LeaseProtocol` that also launches,
 adopts and terminates VMs. Messages to the compute service may be delayed without bound, so a
 termination counts as a threat from the moment it is dispatched.
 */
module SessionProtocol {
  import opened Common
  import opened Lease
  import opened LeaseProtocol
  import opened Session

  type Network = Sys<Authority>

  /** `terminations` records who dispatched a termination of which VM, `launches` the launch calls
      sent, `objects` the checkpoint objects, begun or completed, by the random part of their key. */
  datatype World = World(
    net: Network, procs: map<nat, Proc>, terminations: set<(nat, Vm)>,
    launches: set<LaunchRequest>, objects: map<nat, Object>)

  /** A multipart upload: who began it, under which name, how many parts and bytes the controller
      announced, which part numbers it reported, and how many bytes are stored once it is completed. */
  datatype Object = Object(
    owner: nat, checkpoint: Checkpoint, announced: nat, size: nat, parts: seq<nat>, stored: Option<nat>)

  /** What a capture does to its object before it may name it. */
  datatype Transfer =
    | BeginUpload(announced: nat, size: nat)
    | Report(parts: seq<nat>)
    | Complete(stored: nat)
    | AbortUpload

  /** The parts are those announced, numbered in order. */
  predicate PartsInOrder(o: Object) {
    |o.parts| == o.announced && forall k | 0 <= k < |o.parts| :: o.parts[k] == k + 1
  }

  /** The object has every part and the size announced. */
  predicate Whole(o: Object) {
    PartsInOrder(o) && o.stored == Some(o.size)
  }

  predicate Uploaded(objects: map<nat, Object>, c: Checkpoint) {
    c.upload in objects && objects[c.upload].checkpoint == c && Whole(objects[c.upload])
  }

  datatype Move =
    | Net(step: Step<Authority>)
    | OpenSession(id: nat, ttl: nat, deadline: Deadline, imported: Option<Metadata>, template: Option<Checkpoint>)
    | OpenCleanup(id: nat, ttl: nat, deadline: Deadline, launch: nat)
    | OpenDelete(id: nat, ttl: nat, handle: nat)
    | Grant(id: nat)
    | Confirm(id: nat, choice: bool)
    | Update(id: nat, config: nat, activation: nat)
    | SendLaunch(id: nat)
    | LaunchReturned(id: nat)
    | Terminate(id: nat)
    | Terminated(id: nat)
    | Deliver(id: nat)
    | FailReadiness(id: nat)
    | BeginCapture(id: nat)
    | Transmit(id: nat, target: nat, transfer: Transfer)
    | Checkpointed(id: nat, upload: Option<nat>, tag: nat)
    | AbandonCapture(id: nat)
    | BeginDelete(id: nat)

  /** Delays, losses, responses, timers, renewals, releases and crashes: every lease step that does
      not itself carry the session forward. */
  predicate Quiet(step: Step<Authority>) {
    !step.Begin? && !step.AcquireConfirmed? && !step.WriteConfirmed? && !step.Promote?
    && (step.Enqueue? ==> step.request.Renew?)
  }

  predicate InitWorld(w: World) {
    && Init(w.net) && w.net.durable && w.procs == map[] && w.terminations == {} && w.launches == {}
    && DocOk(w.net.origin)
    && (var m := MetadataOf(StateOf(w.net.origin));
        m.Some? && m.value.checkpoint.Some? ==> Uploaded(w.objects, m.value.checkpoint.value))
    && (forall u | u in w.objects :: w.objects[u].stored.Some? ==> PartsInOrder(w.objects[u]))
  }

  /** The lease step a move performs, if any. */
  function NetStep(w: World, m: Move): Option<Step<Authority>> {
    match m
    case Net(step) => Some(step)
    case OpenSession(id, ttl, deadline, _, _) => Some(Begin(id, ttl, deadline))
    case OpenCleanup(id, ttl, deadline, _) => Some(Begin(id, ttl, deadline))
    case OpenDelete(id, ttl, _) => Some(Begin(id, ttl, None))
    case Grant(id) => Some(AcquireConfirmed(id))
    case Confirm(id, _) => Some(WriteConfirmed(id))
    case Update(id, config, activation) =>
      if Holds(w.net, id) && id in w.procs && Publishes(w.procs[id].stage) then
        Some(Enqueue(id, Publish(ProposalNow(w, id, config, activation))))
      else None
    case Deliver(id) => Some(Promote(id))
    case _ => None
  }

  function ProposalNow(w: World, id: nat, config: nat, activation: nat): Authority
    requires Holds(w.net, id) && id in w.procs && Publishes(w.procs[id].stage)
  {
    var document := LeaseOf(w.net, id).document;
    Proposal(w.procs[id].(config := config, activation := activation), document.generation, document.state)
  }

  predicate At(w: World, id: nat, stage: Stage) {
    id in w.procs && w.procs[id].stage == stage && Holds(w.net, id)
  }

  predicate Allowed(w: World, m: Move) {
    && (NetStep(w, m).Some? ==> Enabled(w.net, NetStep(w, m).value))
    && match m
       case Net(step) => Quiet(step)
       case OpenSession(_, _, _, imported, template) =>
         && (imported.Some? && imported.value.checkpoint.Some? ==> Uploaded(w.objects, imported.value.checkpoint.value))
         && (template.Some? ==> Uploaded(w.objects, template.value))
       case OpenCleanup(_, _, _, launch) => exists r | r in w.launches :: r.token == launch
       case OpenDelete(_, _, handle) => handle in w.procs && w.procs[handle].stage.Captured?
       case Grant(id) => id in w.procs && w.procs[id].stage.Waiting?
       case Confirm(id, _) => id in w.procs
       case Update(id, config, _) =>
         && Holds(w.net, id) && id in w.procs && Publishes(w.procs[id].stage) && w.procs[id].pending.None?
         && (w.procs[id].stage.Request? ==> ConfigAgrees(LeaseOf(w.net, id).document.state, config))
       case SendLaunch(id) => At(w, id, LaunchNow) && SavedRequest(w, id).Some?
       case LaunchReturned(id) => At(w, id, LaunchAwait)
       case Terminate(id) => id in w.procs && Holds(w.net, id) && Terminates(w.procs[id].stage)
         && w.procs[id].doomed.Some?
       case Terminated(id) => id in w.procs && Holds(w.net, id) && AwaitsTermination(w.procs[id].stage)
       case Deliver(id) => At(w, id, Handover) && Passes(LeaseOf(w.net, id), w.net.now)
       case FailReadiness(id) => At(w, id, Ready) || At(w, id, Restore) || At(w, id, Handover)
       case BeginCapture(id) => At(w, id, Live) || At(w, id, Used) || At(w, id, Captured)
       case Transmit(id, upload, transfer) =>
         At(w, id, Upload) && if transfer.BeginUpload? then upload !in w.objects
           else Transmittable(w, id, upload, transfer)
       case Checkpointed(id, upload, _) =>
         At(w, id, Upload) && (upload.Some? ==> Nameable(w, id, upload.value))
       case AbandonCapture(id) => At(w, id, Upload)
       case BeginDelete(id) => At(w, id, Live) || At(w, id, Used) || At(w, id, Captured)
  }

  /** A report counts while the upload is open, and it is completed only with the parts announced. */
  predicate Transmittable(w: World, id: nat, upload: nat, transfer: Transfer) {
    && upload in w.objects && w.objects[upload].owner == id
    && (transfer.Report? ==> w.objects[upload].stored.None?)
    && (transfer.Complete? ==> w.objects[upload].stored.None? && PartsInOrder(w.objects[upload]))
  }

  /** The object this capture began is stored, in the size announced. */
  predicate Nameable(w: World, id: nat, upload: nat)
    requires id in w.procs
  {
    && upload in w.objects && w.objects[upload].owner == id
    && w.objects[upload].checkpoint == NextCheckpoint(w.procs[id], upload)
    && w.objects[upload].stored == Some(w.objects[upload].size)
  }

  /** An abort of an upload that was completed has no effect. */
  function Transmitted(w: World, id: nat, upload: nat, transfer: Transfer): map<nat, Object>
    requires id in w.procs && (transfer.BeginUpload? || upload in w.objects)
  {
    match transfer
    case BeginUpload(announced, size) =>
      w.objects[upload := Object(id, NextCheckpoint(w.procs[id], upload), announced, size, [], None)]
    case Report(parts) => w.objects[upload := w.objects[upload].(parts := parts)]
    case Complete(stored) => w.objects[upload := w.objects[upload].(stored := Some(stored))]
    case AbortUpload => if w.objects[upload].stored.None? then w.objects - {upload} else w.objects
  }

  function SavedRequest(w: World, id: nat): Option<LaunchRequest>
    requires Holds(w.net, id)
  {
    var launch := LaunchOf(LeaseOf(w.net, id).document.state);
    if launch.Some? then launch.value.request else None
  }

  function NetAfter(w: World, m: Move): Network
    requires Allowed(w, m)
  {
    if NetStep(w, m).Some? then Apply(w.net, NetStep(w, m).value) else w.net
  }

  function WithProc(w: World, id: nat, p: Proc): World {
    w.(procs := w.procs[id := p])
  }

  function NewProc(role: Role): Proc {
    Proc(role, Waiting, None, None, None, 0, None, None, 0, 0)
  }

  function Proceed(w: World, m: Move): World
    requires Allowed(w, m)
  {
    var v := w.(net := NetAfter(w, m));
    match m
    case Net(_) => v
    case OpenSession(id, _, _, imported, template) =>
      WithProc(v, id, NewProc(Create).(metadata := imported, template := template))
    case OpenCleanup(id, _, _, launch) => WithProc(v, id, NewProc(Cleanup(launch)))
    case OpenDelete(id, _, handle) =>
      var metadata := w.procs[handle].metadata;
      WithProc(v, id, NewProc(Redelete(if metadata.Some? then Some(metadata.value.tag) else None)))
    case Grant(id) =>
      if Holds(v.net, id) then
        var document := LeaseOf(v.net, id).document;
        WithProc(v, id, Session.Granted(w.procs[id], document.generation, document.state))
      else v
    case Confirm(id, choice) =>
      var before, after := LeaseOf(w.net, id), LeaseOf(v.net, id);
      if after.aborted then v
      else if before.operation.request.Publish?
        then WithProc(v, id, Published(w.procs[id], before.operation.request.state))
      else WithProc(v, id, Verified(w.procs[id], before.document.state, choice))
    case Update(id, config, activation) =>
      WithProc(v, id, w.procs[id].(
        pending := Some(ProposalNow(w, id, config, activation)), config := config, activation := activation))
    case SendLaunch(id) =>
      WithProc(v, id, w.procs[id].(stage := LaunchAwait))
        .(launches := w.launches + {SavedRequest(w, id).value})
    case LaunchReturned(id) => WithProc(v, id, w.procs[id].(stage := Launched))
    case Terminate(id) =>
      WithProc(v, id, AfterDispatch(w.procs[id]))
        .(terminations := w.terminations + {(id, w.procs[id].doomed.value)})
    case Terminated(id) => WithProc(v, id, AfterTermination(w.procs[id]))
    case Deliver(id) => WithProc(v, id, w.procs[id].(stage := Live))
    case FailReadiness(id) => WithProc(v, id, w.procs[id].(stage := FailCheck))
    case BeginCapture(id) => WithProc(v, id, w.procs[id].(stage := Upload))
    case Transmit(id, upload, transfer) => w.(objects := Transmitted(w, id, upload, transfer))
    case Checkpointed(id, upload, tag) =>
      WithProc(v, id, w.procs[id].(stage := Capture, capturing := Some(CaptureMetadata(w.procs[id], upload, tag))))
    case AbandonCapture(id) => WithProc(v, id, w.procs[id].(stage := Used))
    case BeginDelete(id) => WithProc(v, id, w.procs[id].(stage := DeleteCheck))
  }

  predicate LaunchOk(generation: nat, launch: Launch) {
    && launch.id <= generation
    && (launch.microvm.Some? ==> launch.microvm.value == Vm(launch.id))
    && (launch.request.Some? ==> launch.request.value.token == launch.id)
  }

  predicate DocOk(doc: Option<Doc<Authority>>) {
    doc.Some? && LaunchOf(doc.value.state).Some? ==> LaunchOk(doc.value.generation, LaunchOf(doc.value.state).value)
  }

  // ------------------------------------------------------------------ Whose move it is

  /** The client whose step it is; the store and the clock are nobody's. */
  function StepOf(step: Step<Authority>): Option<nat> {
    match step
    case Tick(_) => None
    case Deliver(_) => None
    case Begin(id, _, _) => Some(id)
    case Enqueue(id, _) => Some(id)
    case _ => Some(step.id)
  }

  function MoverOf(m: Move): Option<nat> {
    if m.Net? then StepOf(m.step) else Some(m.id)
  }

  lemma OthersLeaveLease(net: Network, step: Step<Authority>, id: nat)
    requires Holds(net, id) && Enabled(net, step) && StepOf(step) != Some(id)
    ensures Holds(Apply(net, step), id) && Apply(net, step).clients[id] == net.clients[id]
  {
  }

  lemma ClockSteps(net: Network, step: Step<Authority>)
    requires Enabled(net, step)
    ensures Apply(net, step).now == if step.Tick? then step.now else net.now
  {
  }

  /** The lease step of a move is a step of the process whose move it is. */
  lemma StepOfMover(w: World, m: Move)
    requires NetStep(w, m).Some?
    ensures StepOf(NetStep(w, m).value) == MoverOf(m)
    ensures NetStep(w, m).value.Tick? ==> m.Net?
  {
  }

  lemma OthersLeaveProcess(w: World, m: Move, id: nat)
    requires id in w.procs && Allowed(w, m) && MoverOf(m) != Some(id)
    ensures id in Proceed(w, m).procs && Proceed(w, m).procs[id] == w.procs[id]
  {
  }

  lemma NetProceeds(w: World, m: Move)
    requires Allowed(w, m)
    ensures Proceed(w, m).net == NetAfter(w, m)
  {
  }

  /** A process that holds a lease is left alone by all moves that are not its own. */
  lemma OthersLeave(w: World, m: Move, id: nat)
    requires id in w.procs && Holds(w.net, id) && Allowed(w, m) && MoverOf(m) != Some(id)
    ensures var w' := Proceed(w, m);
      id in w'.procs && w'.procs[id] == w.procs[id] && Holds(w'.net, id) && LeaseOf(w'.net, id) == LeaseOf(w.net, id)
  {
    OthersLeaveProcess(w, m, id);
    NetProceeds(w, m);
    var step := NetStep(w, m);
    if step.Some? {
      StepOfMover(w, m);
      OthersLeaveLease(w.net, step.value, id);
    }
  }

  lemma ClockMoves(w: World, m: Move)
    requires Allowed(w, m)
    ensures Proceed(w, m).net.now == if m.Net? && m.step.Tick? then m.step.now else w.net.now
  {
    NetProceeds(w, m);
    var step := NetStep(w, m);
    if step.Some? {
      StepOfMover(w, m);
      ClockSteps(w.net, step.value);
    }
  }
}

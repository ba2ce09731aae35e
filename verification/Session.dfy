/**
 The session authority: what the lease document of a session says about its committed checkpoint
 and its pending launch, and the stages a runtime goes through from opening a session to
 capturing or deleting it.

 One session key is considered. The identity of a launch is the hash of the generation that
 opened it, so a generation number stands for it, and the launch call returns the VM its client
 token determines.
 */
module Session {
  import opened Common

  datatype Vm = Vm(token: nat)

  datatype LaunchRequest = LaunchRequest(token: nat, config: nat, activation: nat)

  datatype Launch = Launch(id: nat, request: Option<LaunchRequest>, microvm: Option<Vm>)

  /** `upload` names the object an upload produced; `tag` is the random manifest ETag. */
  datatype Checkpoint = Checkpoint(generation: nat, upload: nat)

  datatype Metadata = Metadata(checkpoint: Option<Checkpoint>, tag: nat)

  datatype Authority = Authority(metadata: Option<Metadata>, launch: Option<Launch>)

  datatype Role =
    | Create
    | Cleanup(launch: nat)
    | Redelete(tag: Option<nat>)

  datatype Stage =
    | Waiting
    | Admit | Retire | RetireAwait | Claim
    | Prepare | Activate | Request | LaunchNow | LaunchAwait | Launched
    | Record | Reject | RejectKill
    | Ready | Restore | Handover | Live
    | FailCheck | FailKill | FailAwait | Clear
    | Upload | Used | Capture | Captured
    | DeleteCheck | DeleteKill | DeleteAwait | Erase
    | Burn | BurnKill | BurnAwait
    | Closed

  /**
   One call of `create`, one late-result cleanup, or one delete that had to take the lease again.
   `pending` is the state an unfinished `updateState` call asked for; `doomed` the VM this process
   may terminate; `token` its launch once claimed; `capturing` the metadata a capture is about to
   publish; `config` and `activation` the request a launch would propose.
   */
  datatype Proc = Proc(
    role: Role, stage: Stage, pending: Option<Authority>, metadata: Option<Metadata>,
    template: Option<Checkpoint>, token: nat, doomed: Option<Vm>, capturing: Option<Metadata>,
    config: nat, activation: nat)

  function MetadataOf(a: Option<Authority>): Option<Metadata> {
    if a.Some? then a.value.metadata else None
  }

  function LaunchOf(a: Option<Authority>): Option<Launch> {
    if a.Some? then a.value.launch else None
  }

  function CheckpointGen(c: Option<Checkpoint>): nat {
    if c.Some? then c.value.generation else 0
  }

  function CommittedGen(a: Option<Authority>): nat {
    var m := MetadataOf(a);
    if m.Some? then CheckpointGen(m.value.checkpoint) else 0
  }

  /** The checkpoint a capture builds on. */
  function PreviousCheckpoint(p: Proc): Option<Checkpoint> {
    if p.metadata.Some? then p.metadata.value.checkpoint else p.template
  }

  /** The name under which a capture uploads. */
  function NextCheckpoint(p: Proc, upload: nat): Checkpoint {
    Checkpoint(CheckpointGen(PreviousCheckpoint(p)) + 1, upload)
  }

  /** What a capture will publish, with its own checkpoint unless nothing had changed. */
  function CaptureMetadata(p: Proc, upload: Option<nat>, tag: nat): Metadata {
    Metadata(if upload.Some? then Some(NextCheckpoint(p, upload.value)) else PreviousCheckpoint(p), tag)
  }

  /** The process holds its lease under `generation` and found `state` in it. */
  function Granted(p: Proc, generation: nat, state: Option<Authority>): Proc {
    match p.role
    case Create =>
      var launch := LaunchOf(state);
      p.(stage := Admit,
         metadata := if state.Some? then state.value.metadata else p.metadata,
         doomed := if launch.Some? then launch.value.microvm else None)
    case Cleanup(id) =>
      if LaunchOf(state).Some? && LaunchOf(state).value.id == id
      then p.(stage := Burn, metadata := state.value.metadata, token := id)
      else p.(stage := Closed)
    case Redelete(_) => p.(stage := Admit)
  }

  /** The remote ownership check of the stage succeeded. `choice` stands for what the model does
      not look into: whether the launched VM matches its request, or whether a delete still has a VM to stop. */
  function Verified(p: Proc, state: Option<Authority>, choice: bool): Proc {
    match p.stage
    case Admit =>
      if p.role.Redelete? then
        var m := MetadataOf(state);
        if (if m.Some? then Some(m.value.tag) else None) == p.role.tag
        then p.(stage := Erase, metadata := m) else p.(stage := Closed)
      else if p.doomed.Some? then p.(stage := Retire) else p.(stage := Claim)
    case Prepare => p.(stage := Activate)
    case Activate => p.(stage := Request)
    case Launched => if choice then p.(stage := Record) else p.(stage := Reject)
    case Ready => p.(stage := Restore)
    case Restore => p.(stage := Handover)
    case FailCheck => p.(stage := FailKill)
    case DeleteCheck => if choice then p.(stage := DeleteKill) else p.(stage := Erase)
    case _ => p
  }

  predicate Publishes(stage: Stage) {
    stage.Claim? || stage.Request? || stage.Record? || stage.Reject? || stage.Clear?
    || stage.Capture? || stage.Erase? || stage.Burn?
  }

  /** The state the stage's `updateState` call publishes. */
  function Proposal(p: Proc, generation: nat, state: Option<Authority>): Authority
    requires Publishes(p.stage)
  {
    var launch := LaunchOf(state);
    match p.stage
    case Claim =>
      if p.doomed.Some? || launch.None? then Authority(p.metadata, Some(Launch(generation, None, None)))
      else Authority(p.metadata, launch)
    case Request =>
      if launch.Some? then
        var request := if launch.value.request.Some? then launch.value.request.value
                       else LaunchRequest(launch.value.id, p.config, p.activation);
        Authority(MetadataOf(state), Some(launch.value.(request := Some(request))))
      else Authority(p.metadata, None)
    case Capture => Authority(p.capturing, None)
    case Erase => Authority(None, None)
    case Clear => Authority(p.metadata, None)
    case _ =>
      if launch.Some? then Authority(p.metadata, Some(launch.value.(microvm := Some(Vm(launch.value.id)))))
      else Authority(p.metadata, None)
  }

  /** A saved request may only be replayed under the configuration it was made for. */
  predicate ConfigAgrees(state: Option<Authority>, config: nat) {
    var launch := LaunchOf(state);
    launch.Some? && launch.value.request.Some? ==> launch.value.request.value.config == config
  }

  /** The stage's `updateState` call succeeded with `state`. */
  function Published(p: Proc, state: Authority): Proc {
    var q := p.(pending := None);
    match p.stage
    case Claim => if state.launch.Some? then q.(stage := Prepare, token := state.launch.value.id, doomed := None) else q
    case Request => q.(stage := LaunchNow)
    case Record => q.(stage := Ready, doomed := Some(Vm(p.token)))
    case Reject => q.(stage := RejectKill, doomed := Some(Vm(p.token)))
    case Burn => q.(stage := BurnKill, doomed := Some(Vm(p.token)))
    case Clear => q.(stage := Closed)
    case Capture => q.(stage := Captured, metadata := p.capturing)
    case Erase => q.(stage := Closed)
    case _ => q
  }

  predicate Terminates(stage: Stage) {
    stage.Retire? || stage.RejectKill? || stage.FailKill? || stage.Captured? || stage.DeleteKill? || stage.BurnKill?
  }

  function AfterDispatch(p: Proc): Proc {
    match p.stage
    case Retire => p.(stage := RetireAwait)
    case RejectKill => p.(stage := Closed)
    case FailKill => p.(stage := FailAwait)
    case DeleteKill => p.(stage := DeleteAwait)
    case BurnKill => p.(stage := BurnAwait)
    case _ => p
  }

  predicate AwaitsTermination(stage: Stage) {
    stage.RetireAwait? || stage.FailAwait? || stage.DeleteAwait? || stage.BurnAwait?
  }

  function AfterTermination(p: Proc): Proc {
    match p.stage
    case RetireAwait => p.(stage := Claim)
    case FailAwait => p.(stage := Clear)
    case BurnAwait => p.(stage := Clear)
    case DeleteAwait => p.(stage := Erase)
    case _ => p
  }

  /** The changes of authority the stages may publish under `generation`. */
  predicate Change(generation: nat, from: Option<Authority>, to: Authority) {
    || Opens(generation, from, to)
    || (to.launch.None? && MetadataOf(from) == to.metadata)
    || Captures(from, to)
    || to == Authority(None, None)
    || (to.launch.Some? && LaunchOf(from).Some? && LaunchGrows(LaunchOf(from).value, to.launch.value)
        && MetadataOf(from) == to.metadata)
  }

  predicate Opens(generation: nat, from: Option<Authority>, to: Authority) {
    && to.launch == Some(Launch(generation, None, None))
    && (from.Some? ==> from.value.metadata == to.metadata)
    && (LaunchOf(from).Some? ==> LaunchOf(from).value.id != generation && LaunchOf(from).value.microvm.Some?)
  }

  predicate Captures(from: Option<Authority>, to: Authority) {
    && to.launch.None? && to.metadata.Some?
    && (MetadataOf(from).Some? ==>
          to.metadata.value.checkpoint == MetadataOf(from).value.checkpoint
            || CommittedGen(from) < CommittedGen(Some(to)))
  }

  /** One launch only gains facts: its request once, then its VM. */
  predicate LaunchGrows(from: Launch, to: Launch) {
    && to.id == from.id
    && (from.request.Some? ==> to.request == from.request)
    && (to.request.Some? && from.request.None? ==> to.request.value.token == to.id)
    && (from.microvm.Some? ==> to.microvm == from.microvm)
    && (to.microvm.Some? && from.microvm.None? ==> to.microvm.value == Vm(to.id))
  }
}

/**
 One runtime's side of a session as an object: the variables that `create`, `capture` and `delete`
 update between two awaits. Each method is what one await's outcome changes, as `Session` specifies
 and `SessionProtocol` interleaves.
 */
module SessionRuntime {
  import opened Common
  import opened Session

  class Runtime {
    const role: Role
    const template: Option<Checkpoint>
    var stage: Stage
    var pending: Option<Authority>
    var metadata: Option<Metadata>
    var token: nat
    var doomed: Option<Vm>
    var capturing: Option<Metadata>
    var config: nat
    var activation: nat

    function View(): Proc
      reads this
    {
      Proc(role, stage, pending, metadata, template, token, doomed, capturing, config, activation)
    }

    constructor (role: Role, imported: Option<Metadata>, template: Option<Checkpoint>)
      ensures View() == Proc(role, Waiting, None, imported, template, 0, None, None, 0, 0)
    {
      this.role, this.template := role, template;
      stage, pending, metadata, token, doomed := Waiting, None, imported, 0, None;
      capturing, config, activation := None, 0, 0;
    }

    /** The lease was acquired under `generation` with `state` in it. */
    method OnGranted(generation: nat, state: Option<Authority>)
      modifies this
      ensures View() == Session.Granted(old(View()), generation, state)
    {
      match role
      case Create =>
        if state.Some? {
          metadata := state.value.metadata;
        }
        doomed := None;
        if state.Some? && state.value.launch.Some? {
          doomed := state.value.launch.value.microvm;
        }
        stage := Admit;
      case Cleanup(id) =>
        if state.Some? && state.value.launch.Some? && state.value.launch.value.id == id {
          metadata, token, stage := state.value.metadata, id, Burn;
        } else {
          stage := Closed;
        }
      case Redelete(_) =>
        stage := Admit;
    }

    /** `ensureHeld` returned; what happens next depends on where the runtime is. */
    method OnVerified(state: Option<Authority>, choice: bool)
      modifies this
      ensures View() == Verified(old(View()), state, choice)
    {
      match stage
      case Admit =>
        if role.Redelete? {
          var stored := MetadataOf(state);
          var tag := if stored.Some? then Some(stored.value.tag) else None;
          if tag == role.tag {
            metadata, stage := stored, Erase;
          } else {
            stage := Closed;
          }
        } else {
          stage := if doomed.Some? then Retire else Claim;
        }
      case Prepare => stage := Activate;
      case Activate => stage := Request;
      case Launched => stage := if choice then Record else Reject;
      case Ready => stage := Restore;
      case Restore => stage := Handover;
      case FailCheck => stage := FailKill;
      case DeleteCheck => stage := if choice then DeleteKill else Erase;
      case _ =>
    }

    /** Asks the lease to publish the state that the stage calls for. */
    method Propose(generation: nat, state: Option<Authority>, config: nat, activation: nat) returns (next: Authority)
      requires Publishes(stage)
      modifies this
      ensures next == Proposal(old(View()).(config := config, activation := activation), generation, state)
      ensures View() == old(View()).(config := config, activation := activation, pending := Some(next))
    {
      this.config, this.activation := config, activation;
      var launch := LaunchOf(state);
      if stage.Claim? {
        if doomed.Some? || launch.None? {
          launch := Some(Launch(generation, None, None));
        }
        next := Authority(metadata, launch);
      } else if stage.Request? {
        next := Authority(metadata, None);
        if launch.Some? {
          var request := launch.value.request;
          if request.None? {
            request := Some(LaunchRequest(launch.value.id, config, activation));
          }
          next := Authority(MetadataOf(state), Some(launch.value.(request := request)));
        }
      } else if stage.Capture? {
        next := Authority(capturing, None);
      } else if stage.Erase? {
        next := Authority(None, None);
      } else {
        next := Authority(metadata, None);
        if !stage.Clear? && launch.Some? {
          next := Authority(metadata, Some(launch.value.(microvm := Some(Vm(launch.value.id)))));
        }
      }
      pending := Some(next);
    }

    /** `updateState` returned: the state is in the store. */
    method OnPublished(state: Authority)
      modifies this
      ensures View() == Published(old(View()), state)
    {
      pending := None;
      match stage
      case Claim =>
        if state.launch.Some? {
          token, doomed, stage := state.launch.value.id, None, Prepare;
        }
      case Request => stage := LaunchNow;
      case Record => doomed, stage := Some(Vm(token)), Ready;
      case Reject => doomed, stage := Some(Vm(token)), RejectKill;
      case Burn => doomed, stage := Some(Vm(token)), BurnKill;
      case Clear => stage := Closed;
      case Capture => metadata, stage := capturing, Captured;
      case Erase => stage := Closed;
      case _ =>
    }

    method OnTerminationSent()
      modifies `stage
      ensures View() == AfterDispatch(old(View()))
    {
      match stage
      case Retire => stage := RetireAwait;
      case RejectKill => stage := Closed;
      case FailKill => stage := FailAwait;
      case DeleteKill => stage := DeleteAwait;
      case BurnKill => stage := BurnAwait;
      case _ =>
    }

    method OnTerminated()
      modifies `stage
      ensures View() == AfterTermination(old(View()))
    {
      match stage
      case RetireAwait => stage := Claim;
      case FailAwait => stage := Clear;
      case BurnAwait => stage := Clear;
      case DeleteAwait => stage := Erase;
      case _ =>
    }

    /** Moves on without news from outside. */
    method MoveTo(next: Stage)
      modifies `stage
      ensures View() == old(View()).(stage := next)
    {
      stage := next;
    }

    /** What there is to publish once the capture's upload, if any, was verified. */
    method OnCheckpointed(upload: Option<nat>, tag: nat)
      modifies `stage, `capturing
      ensures View() == old(View()).(stage := Capture, capturing := Some(CaptureMetadata(old(View()), upload, tag)))
    {
      var previous := if metadata.Some? then metadata.value.checkpoint else template;
      if upload.Some? {
        var generation := if previous.Some? then previous.value.generation + 1 else 1;
        previous := Some(Checkpoint(generation, upload.value));
      }
      capturing, stage := Some(Metadata(previous, tag)), Capture;
    }
  }
}

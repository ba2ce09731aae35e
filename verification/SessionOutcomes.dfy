/** What a create, a capture, a delete and a late cleanup achieve when they run through. */
module SessionOutcomes {
  import opened Common
  import opened Lease
  import opened LeaseProtocol
  import opened Session
  import opened SessionProtocol
  import opened SessionSafety
  import opened SessionPaths
  import opened SessionDeletes

  // ------------------------------------------------------------------ Terminations

  lemma Terminating(w: World, id: nat) returns (moves: Moves, v: World)
    requires Alone(w, id) && Terminates(w.procs[id].stage) && w.procs[id].doomed.Some?
    ensures Leads(w, moves, v, id) && v.net == w.net && v.launches == w.launches && v.objects == w.objects
    ensures v.terminations == w.terminations + {(id, w.procs[id].doomed.value)}
    ensures v.procs == w.procs[id := AfterDispatch(w.procs[id])]
  {
    moves, v := Moving(w, id, Move.Terminate(id));
  }

  lemma Awaiting(w: World, id: nat) returns (moves: Moves, v: World)
    requires Alone(w, id) && AwaitsTermination(w.procs[id].stage)
    ensures Leads(w, moves, v, id) && v.net == w.net && v.launches == w.launches && v.objects == w.objects
    ensures v.terminations == w.terminations && v.procs == w.procs[id := AfterTermination(w.procs[id])]
  {
    moves, v := Moving(w, id, Move.Terminated(id));
  }

  /** The VM is terminated, and the termination awaited, before the process goes on. */
  lemma TerminatingAwaited(w: World, id: nat, next: Stage) returns (moves: Moves, v: World)
    requires Alone(w, id) && Terminates(w.procs[id].stage) && w.procs[id].doomed.Some?
    requires AwaitsTermination(AfterDispatch(w.procs[id]).stage)
    requires AfterTermination(AfterDispatch(w.procs[id])) == w.procs[id].(stage := next)
    ensures Leads(w, moves, v, id) && v.net == w.net && v.launches == w.launches && v.objects == w.objects
    ensures v.terminations == w.terminations + {(id, w.procs[id].doomed.value)}
    ensures v.procs == w.procs[id := w.procs[id].(stage := next)]
  {
    var u, more;
    moves, u := Terminating(w, id);
    more, v := Awaiting(u, id);
    moves := Then(w, moves, u, more, v, id);
    TwiceUpdated(w.procs, id, AfterDispatch(w.procs[id]), w.procs[id].(stage := next));
  }

  // ------------------------------------------------------------------ From a claimed launch to its VM

  /** The request that a launch call of this launch carries. */
  function RequestFor(launch: Launch, config: nat, activation: nat): LaunchRequest {
    if launch.request.Some? then launch.request.value else LaunchRequest(launch.id, config, activation)
  }

  lemma ToRequest(w: World, id: nat) returns (moves: Moves, v: World)
    requires Alone(w, id) && w.procs[id].stage.Prepare?
    ensures Leads(w, moves, v, id) && OnlyOwn(w, v, id) && StateAt(v, id) == StateAt(w, id)
    ensures v.procs[id] == w.procs[id].(stage := Request)
  {
    var u, more;
    moves, u := Verifying(w, id, true);
    more, v := Verifying(u, id, true);
    moves := ThenOwn(w, moves, u, more, v, id);
  }

  lemma ToLaunch(w: World, id: nat, config: nat, activation: nat, launch: Launch) returns (moves: Moves, v: World)
    requires Alone(w, id) && w.procs[id].stage.Request? && LaunchOf(StateAt(w, id)) == Some(launch)
    requires launch.request.Some? ==> launch.request.value.config == config
    ensures Leads(w, moves, v, id) && OnlyOwn(w, v, id)
    ensures StateAt(v, id) == Some(Authority(MetadataOf(StateAt(w, id)),
                                             Some(launch.(request := Some(RequestFor(launch, config, activation))))))
    ensures v.procs[id] == w.procs[id].(stage := LaunchNow, config := config, activation := activation)
  {
    var state;
    moves, v, state := Publishing(w, id, config, activation);
  }

  /** The request is saved before the launch call carries it. */
  lemma ToLaunched(w: World, id: nat, request: LaunchRequest) returns (moves: Moves, v: World)
    requires Alone(w, id) && w.procs[id].stage.LaunchNow? && SavedRequest(w, id) == Some(request)
    ensures Leads(w, moves, v, id) && StateAt(v, id) == StateAt(w, id)
    ensures v.launches == w.launches + {request} && v.terminations == w.terminations && v.objects == w.objects
    ensures v.procs == w.procs[id := w.procs[id].(stage := Launched)]
  {
    var u, more;
    moves, u := Launching(w, id, request);
    more, v := Returning(u, id);
    moves := Then(w, moves, u, more, v, id);
    TwiceUpdated(w.procs, id, w.procs[id].(stage := LaunchAwait), w.procs[id].(stage := Launched));
  }

  lemma Launching(w: World, id: nat, request: LaunchRequest) returns (moves: Moves, v: World)
    requires Alone(w, id) && w.procs[id].stage.LaunchNow? && SavedRequest(w, id) == Some(request)
    ensures Leads(w, moves, v, id) && v.net == w.net && v.launches == w.launches + {request}
    ensures v.terminations == w.terminations && v.objects == w.objects
    ensures v.procs == w.procs[id := w.procs[id].(stage := LaunchAwait)]
  {
    moves, v := Moving(w, id, Move.SendLaunch(id));
  }

  lemma Returning(w: World, id: nat) returns (moves: Moves, v: World)
    requires Alone(w, id) && w.procs[id].stage.LaunchAwait?
    ensures Leads(w, moves, v, id) && v.net == w.net && v.launches == w.launches
    ensures v.terminations == w.terminations && v.objects == w.objects
    ensures v.procs == w.procs[id := w.procs[id].(stage := Launched)]
  {
    moves, v := Moving(w, id, Move.LaunchReturned(id));
  }

  /** The VM is stored in the document under its launch. */
  lemma ToReady(w: World, id: nat, launch: Launch) returns (moves: Moves, v: World)
    requires Alone(w, id) && w.procs[id].stage.Launched? && LaunchOf(StateAt(w, id)) == Some(launch)
    ensures Leads(w, moves, v, id) && OnlyOwn(w, v, id)
    ensures StateAt(v, id) == Some(Authority(w.procs[id].metadata, Some(launch.(microvm := Some(Vm(launch.id))))))
    ensures v.procs[id] == w.procs[id].(stage := Ready, doomed := Some(Vm(w.procs[id].token)))
  {
    var u, more, state;
    moves, u := Verifying(w, id, true);
    var p := u.procs[id];
    more, v, state := Publishing(u, id, p.config, p.activation);
    moves := ThenOwn(w, moves, u, more, v, id);
  }

  lemma Delivering(w: World, id: nat) returns (moves: Moves, v: World)
    requires Alone(w, id) && w.procs[id].stage.Handover?
    ensures Leads(w, moves, v, id) && OnlyOwn(w, v, id) && StateAt(v, id) == StateAt(w, id)
    ensures v.procs[id] == w.procs[id].(stage := Live) && LeaseOf(v.net, id).deadline == None
  {
    var m := Move.Deliver(id);
    moves, v := [m], Proceed(w, m);
    Single(w, m);
    ReachedNext(w, m);
  }

  /** After two more ownership checks the handle is delivered, and its launch deadline is gone. */
  lemma ToLive(w: World, id: nat) returns (moves: Moves, v: World)
    requires Alone(w, id) && w.procs[id].stage.Ready?
    ensures Leads(w, moves, v, id) && OnlyOwn(w, v, id) && StateAt(v, id) == StateAt(w, id)
    ensures v.procs[id] == w.procs[id].(stage := Live) && LeaseOf(v.net, id).deadline == None
  {
    var u, more;
    moves, u := ToHandover(w, id);
    more, v := Delivering(u, id);
    moves := ThenOwn(w, moves, u, more, v, id);
  }

  lemma ToHandover(w: World, id: nat) returns (moves: Moves, v: World)
    requires Alone(w, id) && w.procs[id].stage.Ready?
    ensures Leads(w, moves, v, id) && OnlyOwn(w, v, id) && StateAt(v, id) == StateAt(w, id)
    ensures v.procs[id] == w.procs[id].(stage := Handover)
  {
    var u, more;
    moves, u := Verifying(w, id, true);
    more, v := Verifying(u, id, true);
    moves := ThenOwn(w, moves, u, more, v, id);
  }

  /** A process that claimed a launch makes exactly one launch call, with the request saved in the document
      or its own, and delivers a handle on that launch's VM. */
  lemma ClaimDelivers(w: World, id: nat, config: nat, activation: nat, launch: Launch) returns (moves: Moves, v: World)
    requires Alone(w, id) && w.procs[id].stage.Prepare? && LaunchOf(StateAt(w, id)) == Some(launch)
    requires launch.request.Some? ==> launch.request.value.config == config
    requires MetadataOf(StateAt(w, id)) == w.procs[id].metadata && w.procs[id].token == launch.id
    ensures Leads(w, moves, v, id) && Delivered(w, v, id, launch, RequestFor(launch, config, activation))
    ensures v.terminations == w.terminations && v.launches == w.launches + {RequestFor(launch, config, activation)}
  {
    var request := RequestFor(launch, config, activation);
    var a, b, more;
    moves, a := ToRequest(w, id);
    more, b := ToLaunch(a, id, config, activation, launch);
    moves := Then(w, moves, a, more, b, id);
    more, a := ToLaunched(b, id, request);
    moves := Then(w, moves, b, more, a, id);
    more, b := ToReady(a, id, launch.(request := Some(request)));
    moves := Then(w, moves, a, more, b, id);
    more, v := ToLive(b, id);
    moves := Then(w, moves, b, more, v, id);
  }

  /** The handle is live on the launch's VM, which the document names, over the metadata it had. */
  predicate Delivered(w: World, v: World, id: nat, launch: Launch, request: LaunchRequest)
    requires Holds(w.net, id) && Holds(v.net, id) && id in w.procs && id in v.procs
  {
    && v.procs[id].stage.Live? && v.procs[id].token == launch.id && v.procs[id].metadata == w.procs[id].metadata
    && LeaseOf(v.net, id).deadline == None
    && StateAt(v, id) == Some(Authority(w.procs[id].metadata,
                                        Some(Launch(launch.id, Some(request), Some(Vm(launch.id))))))
  }

  // ------------------------------------------------------------------ Creating

  /** The lease was just acquired, and the store still has what was written. */
  ghost predicate Arrives(w: World, id: nat, state: Option<Authority>) {
    && Reached(w) && Allowed(w, Grant(id))
    && var doc := w.net.puts[w.net.clients[id].put].next;
       && w.net.store == doc && doc.Some? && w.net.now < doc.value.expiresAt && doc.value.state == state
       && Before(w.net.now, w.net.clients[id].deadline)
  }

  lemma Granting(w: World, id: nat, state: Option<Authority>) returns (v: World)
    requires Arrives(w, id, state)
    ensures v == Proceed(w, Grant(id)) && Alone(v, id) && OnlyOwn(w, v, id) && StateAt(v, id) == state
    ensures v.procs[id] == Session.Granted(w.procs[id], GenerationAt(v, id), state)
  {
    v := Proceed(w, Grant(id));
    ReachedNext(w, Grant(id));
    ReachedInv(w);
    assert ProcInv(w.net.origin, w.net.log, w.net.puts, w.terminations, id, w.net.clients[id], w.procs[id]);
  }

  /** The metadata a create goes on with: what is stored, or what it was given if nothing is. */
  function Adopted(imported: Option<Metadata>, state: Option<Authority>): Option<Metadata> {
    if state.Some? then state.value.metadata else imported
  }

  lemma Claiming(w: World, id: nat, launch: Launch) returns (moves: Moves, v: World)
    requires Alone(w, id) && w.procs[id].stage.Claim?
    requires launch == (if w.procs[id].doomed.Some? || LaunchOf(StateAt(w, id)).None?
                        then Launch(GenerationAt(w, id), None, None) else LaunchOf(StateAt(w, id)).value)
    ensures Leads(w, moves, v, id) && OnlyOwn(w, v, id)
    ensures StateAt(v, id) == Some(Authority(w.procs[id].metadata, Some(launch)))
    ensures v.procs[id] == w.procs[id].(stage := Prepare, token := launch.id, doomed := None)
  {
    var p := w.procs[id];
    var state;
    moves, v, state := Publishing(w, id, p.config, p.activation);
  }

  lemma Deciding(w: World, id: nat) returns (moves: Moves, v: World)
    requires Alone(w, id) && w.procs[id].stage.Admit? && w.procs[id].role.Create?
    ensures Leads(w, moves, v, id) && OnlyOwn(w, v, id) && StateAt(v, id) == StateAt(w, id)
    ensures v.procs[id] == w.procs[id].(stage := if w.procs[id].doomed.Some? then Retire else Claim)
  {
    moves, v := Verifying(w, id, true);
  }

  /** The recorded VM is terminated, and the termination awaited, before anything is published. */
  lemma Retiring(w: World, id: nat) returns (moves: Moves, v: World)
    requires Alone(w, id) && w.procs[id].stage.Retire? && w.procs[id].doomed.Some?
    ensures Leads(w, moves, v, id) && v.net == w.net && v.launches == w.launches
    ensures v.terminations == w.terminations + {(id, w.procs[id].doomed.value)}
    ensures v.procs == w.procs[id := w.procs[id].(stage := Claim)]
  {
    moves, v := TerminatingAwaited(w, id, Claim);
  }

  /** A create whose document names no VM delivers a handle: on the pending launch, replaying its saved
      request, if there is one, and otherwise on a launch of its own generation. */
  lemma CreateDelivers(w: World, id: nat, config: nat, activation: nat, state: Option<Authority>)
    returns (u: World, moves: Moves, v: World)
    requires Arrives(w, id, state) && w.procs[id].role.Create?
    requires LaunchOf(state).Some? ==> LaunchOf(state).value.microvm.None?
    requires LaunchOf(state).Some? && LaunchOf(state).value.request.Some? ==>
      LaunchOf(state).value.request.value.config == config
    ensures u == Proceed(w, Grant(id)) && Leads(u, moves, v, id)
    ensures var launch := if LaunchOf(state).Some? then LaunchOf(state).value
                          else Launch(GenerationAt(u, id), None, None);
      && Delivered(u, v, id, launch, RequestFor(launch, config, activation))
      && v.procs[id].metadata == Adopted(w.procs[id].metadata, state)
      && v.terminations == w.terminations && v.launches == w.launches + {RequestFor(launch, config, activation)}
  {
    u := Granting(w, id, state);
    var a, b, more;
    moves, a := Deciding(u, id);
    var launch := if LaunchOf(state).Some? then LaunchOf(state).value else Launch(GenerationAt(u, id), None, None);
    more, b := Claiming(a, id, launch);
    moves := Then(u, moves, a, more, b, id);
    more, v := ClaimDelivers(b, id, config, activation, launch);
    moves := Then(u, moves, b, more, v, id);
  }

  /** What is requested under a launch is always the process's own configuration: a saved request for another one is
      not replayed. */
  lemma OwnConfiguration(w: World, id: nat, config: nat, activation: nat)
    requires Allowed(w, Update(id, config, activation)) && w.procs[id].stage.Request?
    requires LaunchOf(LeaseOf(w.net, id).document.state).Some?
    ensures var launch := ProposalNow(w, id, config, activation).launch;
      launch.Some? && launch.value.request.Some? && launch.value.request.value.config == config
  {
  }

  /** A create whose document names a VM terminates that VM and delivers a handle on a new one. */
  lemma CreateReplaces(w: World, id: nat, config: nat, activation: nat, state: Option<Authority>, vm: Vm)
    returns (u: World, moves: Moves, v: World)
    requires Arrives(w, id, state) && w.procs[id].role.Create?
    requires LaunchOf(state).Some? && LaunchOf(state).value.microvm == Some(vm)
    ensures u == Proceed(w, Grant(id)) && Leads(u, moves, v, id)
    ensures var launch := Launch(GenerationAt(u, id), None, None);
      && Delivered(u, v, id, launch, LaunchRequest(launch.id, config, activation))
      && v.procs[id].metadata == state.value.metadata
      && v.terminations == w.terminations + {(id, vm)}
      && v.launches == w.launches + {LaunchRequest(launch.id, config, activation)}
  {
    u := Granting(w, id, state);
    var a, b, more;
    moves, a := Deciding(u, id);
    more, b := Retiring(a, id);
    moves := Then(u, moves, a, more, b, id);
    var launch := Launch(GenerationAt(u, id), None, None);
    more, a := Claiming(b, id, launch);
    moves := Then(u, moves, b, more, a, id);
    more, v := ClaimDelivers(a, id, config, activation, launch);
    moves := Then(u, moves, a, more, v, id);
  }

  // ------------------------------------------------------------------ Failing

  lemma ToReject(w: World, id: nat, launch: Launch) returns (moves: Moves, v: World)
    requires Alone(w, id) && w.procs[id].stage.Launched? && LaunchOf(StateAt(w, id)) == Some(launch)
    ensures Leads(w, moves, v, id) && OnlyOwn(w, v, id)
    ensures StateAt(v, id) == Some(Authority(w.procs[id].metadata, Some(launch.(microvm := Some(Vm(launch.id))))))
    ensures v.procs[id] == w.procs[id].(stage := RejectKill, doomed := Some(Vm(w.procs[id].token)))
  {
    var u, more, state;
    moves, u := Verifying(w, id, false);
    var p := u.procs[id];
    more, v, state := Publishing(u, id, p.config, p.activation);
    moves := ThenOwn(w, moves, u, more, v, id);
  }

  /** A VM that does not match its request is recorded, so that it can be found, and terminated; no handle is
      delivered. */
  lemma MismatchIsRetired(w: World, id: nat, launch: Launch) returns (moves: Moves, v: World)
    requires Alone(w, id) && w.procs[id].stage.Launched? && LaunchOf(StateAt(w, id)) == Some(launch)
    requires w.procs[id].token == launch.id
    ensures Leads(w, moves, v, id) && v.procs[id].stage.Closed?
    ensures StateAt(v, id) == Some(Authority(w.procs[id].metadata, Some(launch.(microvm := Some(Vm(launch.id))))))
    ensures v.terminations == w.terminations + {(id, Vm(launch.id))} && v.launches == w.launches
  {
    var u, more;
    moves, u := ToReject(w, id, launch);
    more, v := Terminating(u, id);
    moves := Then(w, moves, u, more, v, id);
  }

  /** A start-up that fails with the VM recorded terminates it and clears the launch, and the committed
      metadata stays. */
  lemma FailureIsCleared(w: World, id: nat) returns (moves: Moves, v: World)
    requires Alone(w, id) && (w.procs[id].stage.Ready? || w.procs[id].stage.Restore? || w.procs[id].stage.Handover?)
    requires w.procs[id].doomed.Some?
    ensures Leads(w, moves, v, id) && v.procs[id].stage.Closed?
    ensures StateAt(v, id) == Some(Authority(w.procs[id].metadata, None))
    ensures v.terminations == w.terminations + {(id, w.procs[id].doomed.value)} && v.launches == w.launches
  {
    var u, more;
    moves, u := ToFailKill(w, id);
    more, v := Clearing(u, id);
    moves := Then(w, moves, u, more, v, id);
  }

  /** The process first makes sure that the VM is still its own to terminate. */
  lemma ToFailKill(w: World, id: nat) returns (moves: Moves, v: World)
    requires Alone(w, id) && (w.procs[id].stage.Ready? || w.procs[id].stage.Restore? || w.procs[id].stage.Handover?)
    ensures Leads(w, moves, v, id) && OnlyOwn(w, v, id) && v.procs[id] == w.procs[id].(stage := FailKill)
  {
    var u, more;
    moves, u := FailingNow(w, id);
    more, v := Verifying(u, id, true);
    moves := ThenOwn(w, moves, u, more, v, id);
  }

  lemma FailingNow(w: World, id: nat) returns (moves: Moves, v: World)
    requires Alone(w, id) && (w.procs[id].stage.Ready? || w.procs[id].stage.Restore? || w.procs[id].stage.Handover?)
    ensures Leads(w, moves, v, id) && OnlyOwn(w, v, id) && v.procs[id] == w.procs[id].(stage := FailCheck)
  {
    moves, v := Moving(w, id, Move.FailReadiness(id));
  }

  /** The termination is awaited before anything is published. */
  lemma ToClear(w: World, id: nat) returns (moves: Moves, v: World)
    requires Alone(w, id) && (w.procs[id].stage.FailKill? || w.procs[id].stage.BurnKill?) && w.procs[id].doomed.Some?
    ensures Leads(w, moves, v, id) && v.net == w.net && v.launches == w.launches
    ensures v.terminations == w.terminations + {(id, w.procs[id].doomed.value)}
    ensures v.procs == w.procs[id := w.procs[id].(stage := Clear)]
  {
    moves, v := TerminatingAwaited(w, id, Clear);
  }

  lemma ClearsLaunch(p: Proc, generation: nat, state: Option<Authority>)
    requires p.stage.Clear?
    ensures Proposal(p, generation, state) == Authority(p.metadata, None)
    ensures Published(p, Authority(p.metadata, None)).stage.Closed?
  {
  }

  lemma Forgetting(w: World, id: nat) returns (moves: Moves, v: World)
    requires Alone(w, id) && w.procs[id].stage.Clear?
    ensures Leads(w, moves, v, id) && OnlyOwn(w, v, id) && v.procs[id].stage.Closed?
    ensures StateAt(v, id) == Some(Authority(w.procs[id].metadata, None))
  {
    var p := w.procs[id];
    var state;
    ClearsLaunch(p, GenerationAt(w, id), StateAt(w, id));
    moves, v, state := Publishing(w, id, p.config, p.activation);
  }

  /** Terminating, and then publishing that there is no launch any more. */
  lemma Clearing(w: World, id: nat) returns (moves: Moves, v: World)
    requires Alone(w, id) && (w.procs[id].stage.FailKill? || w.procs[id].stage.BurnKill?) && w.procs[id].doomed.Some?
    ensures Leads(w, moves, v, id) && v.procs[id].stage.Closed?
    ensures StateAt(v, id) == Some(Authority(w.procs[id].metadata, None))
    ensures v.terminations == w.terminations + {(id, w.procs[id].doomed.value)} && v.launches == w.launches
  {
    var u, more;
    moves, u := ToClear(w, id);
    more, v := Forgetting(u, id);
    moves := Then(w, moves, u, more, v, id);
  }

  lemma RecordsLaunch(p: Proc, generation: nat, state: Option<Authority>, launch: Launch)
    requires p.stage.Burn? && LaunchOf(state) == Some(launch)
    ensures var recorded := Authority(p.metadata, Some(launch.(microvm := Some(Vm(launch.id)))));
      && Proposal(p, generation, state) == recorded
      && Published(p, recorded) == p.(pending := None, stage := BurnKill, doomed := Some(Vm(p.token)))
  {
  }

  /** A late result is recorded under its launch before it is terminated. */
  lemma Burning(w: World, id: nat, launch: Launch) returns (moves: Moves, v: World)
    requires Alone(w, id) && w.procs[id].stage.Burn? && LaunchOf(StateAt(w, id)) == Some(launch)
    ensures Leads(w, moves, v, id) && OnlyOwn(w, v, id)
    ensures v.procs[id] == w.procs[id].(stage := BurnKill, doomed := Some(Vm(w.procs[id].token)))
    ensures StateAt(v, id) == Some(Authority(w.procs[id].metadata, Some(launch.(microvm := Some(Vm(launch.id))))))
  {
    var p := w.procs[id];
    var state;
    RecordsLaunch(p, GenerationAt(w, id), StateAt(w, id), launch);
    assert p.(config := p.config, activation := p.activation) == p;
    moves, v, state := Publishing(w, id, p.config, p.activation);
  }

  /** The cleanup of a late result: if the launch is still the pending one, its VM is recorded, terminated and
      its launch cleared; otherwise nothing happens. */
  lemma LateResultIsRetired(w: World, id: nat, launch: nat, state: Option<Authority>)
    returns (u: World, moves: Moves, v: World)
    requires Arrives(w, id, state) && w.procs[id].role == Cleanup(launch)
    ensures u == Proceed(w, Grant(id)) && Leads(u, moves, v, id) && v.procs[id].stage.Closed?
    ensures if LaunchOf(state).Some? && LaunchOf(state).value.id == launch
      then StateAt(v, id) == Some(Authority(state.value.metadata, None))
           && v.terminations == w.terminations + {(id, Vm(launch))}
      else moves == [] && StateAt(v, id) == state && v.terminations == w.terminations
  {
    u := Granting(w, id, state);
    if LaunchOf(state).Some? && LaunchOf(state).value.id == launch {
      var a, more;
      moves, a := Burning(u, id, LaunchOf(state).value);
      more, v := Clearing(a, id);
      moves := Then(u, moves, a, more, v, id);
    } else {
      moves, v := [], u;
    }
  }

  // ------------------------------------------------------------------ Capturing and deleting

  /** A capture uploads under the name of the next checkpoint and takes that name. */
  lemma ToCapture(w: World, id: nat, upload: nat, announced: nat, size: nat, parts: seq<nat>, tag: nat)
    returns (moves: Moves, v: World)
    requires Alone(w, id) && w.procs[id].stage.Upload? && upload !in w.objects
    requires |parts| == announced && forall k | 0 <= k < announced :: parts[k] == k + 1
    ensures Leads(w, moves, v, id) && v.terminations == w.terminations
    ensures var c := Checkpoint(CheckpointGen(PreviousCheckpoint(w.procs[id])) + 1, upload);
      && Uploaded(v.objects, c)
      && v.procs[id] == w.procs[id].(stage := Capture, capturing := Some(Metadata(Some(c), tag)))
  {
    var u, more;
    moves, u := Uploading(w, id, upload, announced, size, parts);
    more, v := Moving(u, id, Move.Checkpointed(id, Some(upload), tag));
    moves := Then(w, moves, u, more, v, id);
  }

  lemma Beginning(w: World, id: nat) returns (moves: Moves, v: World)
    requires Alone(w, id) && w.procs[id].stage.Live?
    ensures Leads(w, moves, v, id) && OnlyOwn(w, v, id) && v.procs[id] == w.procs[id].(stage := Upload)
  {
    moves, v := Moving(w, id, Move.BeginCapture(id));
  }

  /** A capture that uploaded commits the next checkpoint and only then terminates the VM. */
  lemma CaptureCommits(w: World, id: nat, upload: nat, announced: nat, size: nat, parts: seq<nat>, tag: nat)
    returns (moves: Moves, v: World)
    requires Alone(w, id) && w.procs[id].stage.Live? && upload !in w.objects && w.procs[id].doomed.Some?
    requires |parts| == announced && forall k | 0 <= k < announced :: parts[k] == k + 1
    ensures Leads(w, moves, v, id) && v.procs[id].stage.Captured?
    ensures var p := w.procs[id];
      var previous := if p.metadata.Some? then p.metadata.value.checkpoint else p.template;
      var c := Checkpoint(if previous.Some? then previous.value.generation + 1 else 1, upload);
      && StateAt(v, id) == Some(Authority(Some(Metadata(Some(c), tag)), None)) && Uploaded(v.objects, c)
      && v.terminations == w.terminations + {(id, w.procs[id].doomed.value)}
  {
    var a, b, more;
    moves, a := Beginning(w, id);
    more, b := ToCapture(a, id, upload, announced, size, parts, tag);
    moves := Then(w, moves, a, more, b, id);
    more, v := Committing(b, id);
    moves := Then(w, moves, b, more, v, id);
  }

  /** One request of an upload. */
  lemma Sending(w: World, id: nat, upload: nat, transfer: Transfer) returns (moves: Moves, v: World)
    requires Alone(w, id) && w.procs[id].stage.Upload?
    requires if transfer.BeginUpload? then upload !in w.objects else Transmittable(w, id, upload, transfer)
    ensures Leads(w, moves, v, id) && v == w.(objects := Transmitted(w, id, upload, transfer))
  {
    moves, v := Moving(w, id, Move.Transmit(id, upload, transfer));
  }

  lemma Uploading(w: World, id: nat, upload: nat, announced: nat, size: nat, parts: seq<nat>)
    returns (moves: Moves, v: World)
    requires Alone(w, id) && w.procs[id].stage.Upload? && upload !in w.objects
    requires |parts| == announced && forall k | 0 <= k < announced :: parts[k] == k + 1
    ensures Leads(w, moves, v, id) && v == w.(objects := v.objects) && upload in v.objects
    ensures v.objects[upload]
         == Object(id, NextCheckpoint(w.procs[id], upload), announced, size, parts, Some(size))
  {
    var a, b, more;
    moves, a := Sending(w, id, upload, BeginUpload(announced, size));
    more, b := Sending(a, id, upload, Report(parts));
    moves := Then(w, moves, a, more, b, id);
    more, v := Sending(b, id, upload, Complete(size));
    moves := Then(w, moves, b, more, v, id);
  }

  lemma CommitsCapture(p: Proc, generation: nat, state: Option<Authority>)
    requires p.stage.Capture?
    ensures Proposal(p, generation, state) == Authority(p.capturing, None)
    ensures Published(p, Authority(p.capturing, None))
         == p.(pending := None, stage := Captured, metadata := p.capturing)
  {
  }

  lemma Committing(w: World, id: nat) returns (moves: Moves, v: World)
    requires Alone(w, id) && w.procs[id].stage.Capture? && w.procs[id].doomed.Some?
    ensures Leads(w, moves, v, id) && v.procs[id].stage.Captured?
    ensures StateAt(v, id) == Some(Authority(w.procs[id].capturing, None)) && v.objects == w.objects
    ensures v.terminations == w.terminations + {(id, w.procs[id].doomed.value)}
  {
    var a, more, state;
    var p := w.procs[id];
    CommitsCapture(p, GenerationAt(w, id), StateAt(w, id));
    assert p.(config := p.config, activation := p.activation) == p;
    moves, a, state := Publishing(w, id, p.config, p.activation);
    more, v := Moving(a, id, Move.Terminate(id));
    moves := Then(w, moves, a, more, v, id);
  }

  /** A capture that found nothing to upload commits the checkpoint it had. */
  lemma CaptureKeepsCheckpoint(w: World, id: nat, tag: nat) returns (moves: Moves, v: World)
    requires Alone(w, id) && w.procs[id].stage.Live? && w.procs[id].doomed.Some?
    ensures Leads(w, moves, v, id) && v.procs[id].stage.Captured?
    ensures StateAt(v, id) == Some(Authority(Some(Metadata(PreviousCheckpoint(w.procs[id]), tag)), None))
    ensures v.terminations == w.terminations + {(id, w.procs[id].doomed.value)}
  {
    var a, b, more;
    moves, a := Moving(w, id, Move.BeginCapture(id));
    more, b := Moving(a, id, Move.Checkpointed(id, None, tag));
    moves := Then(w, moves, a, more, b, id);
    more, v := Committing(b, id);
    moves := Then(w, moves, b, more, v, id);
  }

  /** Publishing the erasure. */
  lemma ErasesAll(p: Proc, generation: nat, state: Option<Authority>)
    requires p.stage.Erase?
    ensures Proposal(p, generation, state) == Authority(None, None)
    ensures Published(p, Authority(None, None)).stage.Closed?
  {
  }

  lemma Erasing(w: World, id: nat) returns (moves: Moves, v: World)
    requires Alone(w, id) && w.procs[id].stage.Erase?
    ensures Leads(w, moves, v, id) && OnlyOwn(w, v, id) && v.procs[id].stage.Closed?
    ensures StateAt(v, id) == Some(Authority(None, None))
  {
    var p := w.procs[id];
    var state;
    ErasesAll(p, GenerationAt(w, id), StateAt(w, id));
    moves, v, state := Publishing(w, id, p.config, p.activation);
  }

  lemma ToErase(w: World, id: nat) returns (moves: Moves, v: World)
    requires Alone(w, id) && w.procs[id].stage.DeleteKill? && w.procs[id].doomed.Some?
    ensures Leads(w, moves, v, id) && v.net == w.net && v.launches == w.launches
    ensures v.terminations == w.terminations + {(id, w.procs[id].doomed.value)}
    ensures v.procs == w.procs[id := w.procs[id].(stage := Erase)]
  {
    moves, v := TerminatingAwaited(w, id, Erase);
  }

  lemma Checking(w: World, id: nat, vmLeft: bool) returns (moves: Moves, v: World)
    requires Alone(w, id) && (w.procs[id].stage.Live? || w.procs[id].stage.Captured?)
    ensures Leads(w, moves, v, id) && OnlyOwn(w, v, id) && StateAt(v, id) == StateAt(w, id)
    ensures v.procs[id] == w.procs[id].(stage := if vmLeft then DeleteKill else Erase)
  {
    var u, more;
    moves, u := Starting(w, id);
    more, v := Verifying(u, id, vmLeft);
    moves := ThenOwn(w, moves, u, more, v, id);
  }

  lemma Starting(w: World, id: nat) returns (moves: Moves, v: World)
    requires Alone(w, id) && (w.procs[id].stage.Live? || w.procs[id].stage.Captured?)
    ensures Leads(w, moves, v, id) && OnlyOwn(w, v, id) && v.net == w.net
    ensures v.procs[id] == w.procs[id].(stage := DeleteCheck)
  {
    moves, v := Moving(w, id, Move.BeginDelete(id));
  }

  /** A delete terminates the VM that is still there, awaits it, and then erases what was committed. */
  lemma DeleteErases(w: World, id: nat) returns (moves: Moves, v: World)
    requires Alone(w, id) && w.procs[id].stage.Live? && w.procs[id].doomed.Some?
    ensures Leads(w, moves, v, id) && v.procs[id].stage.Closed? && StateAt(v, id) == Some(Authority(None, None))
    ensures v.terminations == w.terminations + {(id, w.procs[id].doomed.value)}
  {
    var a, b, more;
    moves, a := Checking(w, id, true);
    more, b := ToErase(a, id);
    moves := Then(w, moves, a, more, b, id);
    more, v := Erasing(b, id);
    moves := Then(w, moves, b, more, v, id);
  }

  /** With the VM gone already, it erases at once. */
  lemma DeleteAfterCaptureErases(w: World, id: nat) returns (moves: Moves, v: World)
    requires Alone(w, id) && w.procs[id].stage.Captured?
    ensures Leads(w, moves, v, id) && v.procs[id].stage.Closed? && StateAt(v, id) == Some(Authority(None, None))
    ensures v.terminations == w.terminations
  {
    var u, more;
    moves, u := Checking(w, id, false);
    more, v := Erasing(u, id);
    moves := Then(w, moves, u, more, v, id);
  }

  lemma Retried(w: World, id: nat) returns (moves: Moves, v: World)
    requires Alone(w, id) && w.procs[id].stage.Admit? && w.procs[id].role.Redelete?
    ensures Leads(w, moves, v, id) && OnlyOwn(w, v, id) && StateAt(v, id) == StateAt(w, id)
    ensures v.procs[id] == Verified(w.procs[id], StateAt(w, id), true)
  {
    moves, v := Verifying(w, id, true);
  }

  /** A delete that took the lease again erases the session if the document still has the tag that its handle
      knew, and leaves it as it is otherwise. */
  lemma RetriedDelete(w: World, id: nat, tag: Option<nat>, state: Option<Authority>)
    returns (u: World, moves: Moves, v: World)
    requires Arrives(w, id, state) && w.procs[id].role == Redelete(tag)
    ensures u == Proceed(w, Grant(id)) && Leads(u, moves, v, id) && v.procs[id].stage.Closed?
    ensures StateAt(v, id) == if TagOf(MetadataOf(state)) == tag then Some(Authority(None, None)) else state
    ensures v.terminations == w.terminations
  {
    u := Granting(w, id, state);
    moves, v := Retried(u, id);
    if v.procs[id].stage.Erase? {
      var a, more;
      more, a := Erasing(v, id);
      moves := Then(u, moves, v, more, a, id);
      v := a;
    }
  }
}

/**
 A runtime with its lease object is one process of the session world: each of its turns performs the
 move of the world it stands for, and they follow every run of the world up to the process's crash, so
 what is proved of the world's runs holds of these objects.
 */
module SessionDriver {
  import opened Common
  import opened Lease
  import opened LeaseHandle
  import opened LeaseProtocol
  import opened Session
  import opened SessionProtocol
  import opened SessionRuntime
  import opened SessionSafety

  class Driver {
    const runtime: Runtime
    const handle: Handle<Authority>
    const id: nat

    /** The objects hold what the world says of the process. */
    ghost predicate Mirrors(w: World)
      reads this, runtime, handle
    {
      && handle.Valid() && id in w.procs && Holds(w.net, id)
      && w.procs[id] == runtime.View() && LeaseOf(w.net, id) == handle.View()
    }

    /** The acquisition is confirmed: `document` is what it wrote. */
    constructor (runtime: Runtime, document: Doc<Authority>, ttl: nat, deadline: Deadline, id: nat, ghost w: World)
      requires Allowed(w, Grant(id)) && w.procs[id] == runtime.View()
      requires w.net.puts[w.net.clients[id].put].next == Some(document)
      requires w.net.clients[id].ttl == ttl && w.net.clients[id].deadline == deadline
      modifies runtime
      ensures Mirrors(Proceed(w, Grant(id))) && this.id == id && fresh(handle) && this.runtime == runtime
    {
      this.runtime, this.id := runtime, id;
      handle := new Handle(document, ttl, deadline);
      new;
      runtime.OnGranted(document.generation, document.state);
    }

    /** The awaited write returned: a publication or an ownership check succeeded, unless the response
        outlived the lease. */
    method WriteReturned(now: int, choice: bool, ghost w: World)
      requires Mirrors(w) && Allowed(w, Confirm(id, choice)) && now == w.net.now
      modifies runtime, handle
      ensures Mirrors(Proceed(w, Confirm(id, choice)))
    {
      var request, state := handle.current.request, handle.document.state;
      handle.Confirm(now);
      if !handle.aborted {
        if request.Publish? { runtime.OnPublished(request.state); } else { runtime.OnVerified(state, choice); }
      }
    }

    method WriteFailed(ghost w: World)
      requires Mirrors(w) && Allowed(w, Net(Step.WriteFailed(id)))
      modifies handle
      ensures Mirrors(Proceed(w, Net(Step.WriteFailed(id))))
    {
      handle.Fail();
    }

    /** Asks the lease to publish what the stage calls for. */
    method UpdateState(config: nat, activation: nat, ghost w: World)
      requires Mirrors(w) && Allowed(w, Update(id, config, activation))
      modifies runtime, handle
      ensures Mirrors(Proceed(w, Update(id, config, activation)))
    {
      var next := runtime.Propose(handle.document.generation, handle.document.state, config, activation);
      handle.UpdateState(next);
    }

    /** The renewal timer, or an ownership check that passed locally. */
    method Renew(ghost w: World)
      requires Mirrors(w) && Allowed(w, Net(Enqueue(id, Request<Authority>.Renew)))
      modifies handle
      ensures Mirrors(Proceed(w, Net(Enqueue(id, Request<Authority>.Renew))))
    {
      handle.RenewalTimer();
    }

    /** Starts the next queued operation; the write it sends is the one the world has in flight. */
    method StartNext(now: int, ghost w: World) returns (order: Option<WriteOrder<Authority>>)
      requires Mirrors(w) && Allowed(w, Net(Step.StartNext(id))) && now == w.net.now
      modifies handle
      ensures Mirrors(Proceed(w, Net(Step.StartNext(id))))
      ensures var net, net' := w.net, Proceed(w, Net(Step.StartNext(id))).net;
        if order.None? then net'.puts == net.puts
        else |net'.puts| == |net.puts| + 1 && net'.puts[|net.puts|].guard == Some(order.value.guard)
             && net'.puts[|net.puts|].next == order.value.next
    {
      order := handle.StartNext(now);
    }

    /** Hands the session over: the launch deadline no longer applies. A lease that fails its check then is
        aborted, and nothing is handed over. */
    method Deliver(now: int, ghost w: World) returns (ok: bool)
      requires Mirrors(w) && At(w, id, Handover) && now == w.net.now
      modifies runtime, handle
      ensures ok == Passes(LeaseOf(w.net, id), now)
      ensures if ok then Allowed(w, Move.Deliver(id)) && Mirrors(Proceed(w, Move.Deliver(id)))
              else Mirrors(Proceed(w, Net(Step.Abort(id))))
    {
      ok := handle.Promote(now);
      if ok { runtime.MoveTo(Live); }
    }

    /** The timer that the handover armed. */
    method PromotionTimer(ghost w: World)
      requires Mirrors(w) && handle.promotionTimer
      modifies handle
      ensures Allowed(w, Net(Enqueue(id, Request<Authority>.Renew)))
      ensures Mirrors(Proceed(w, Net(Enqueue(id, Request<Authority>.Renew))))
    {
      handle.PromotionTimer();
    }

    /** The abort signal of the lease fires. */
    method Abort(ghost w: World)
      requires Mirrors(w)
      modifies handle
      ensures Mirrors(Proceed(w, Net(Step.Abort(id))))
    {
      handle.Abandon();
    }

    /** Sends the launch call with the request saved in the document. */
    method SendLaunch(ghost w: World) returns (request: LaunchRequest)
      requires Mirrors(w) && Allowed(w, Move.SendLaunch(id))
      modifies runtime
      ensures Mirrors(Proceed(w, Move.SendLaunch(id)))
      ensures request in Proceed(w, Move.SendLaunch(id)).launches
    {
      request := LaunchOf(handle.document.state).value.request.value;
      runtime.MoveTo(LaunchAwait);
    }

    /** Dispatches the termination of the VM this process may end. */
    method Terminate(ghost w: World) returns (vm: Vm)
      requires Mirrors(w) && Allowed(w, Move.Terminate(id))
      modifies runtime
      ensures Mirrors(Proceed(w, Move.Terminate(id)))
      ensures (id, vm) in Proceed(w, Move.Terminate(id)).terminations
    {
      vm := runtime.doomed.value;
      runtime.OnTerminationSent();
    }

    method TerminationReturned(ghost w: World)
      requires Mirrors(w) && Allowed(w, Terminated(id))
      modifies runtime
      ensures Mirrors(Proceed(w, Terminated(id)))
    {
      runtime.OnTerminated();
    }

    /** A capture names its checkpoint, if it uploaded one, and is ready to publish. */
    method NameCheckpoint(upload: Option<nat>, tag: nat, ghost w: World)
      requires Mirrors(w) && Allowed(w, Checkpointed(id, upload, tag))
      modifies runtime
      ensures Mirrors(Proceed(w, Checkpointed(id, upload, tag)))
    {
      runtime.OnCheckpointed(upload, tag);
    }

    method LaunchReturned(ghost w: World)
      requires Mirrors(w) && Allowed(w, Move.LaunchReturned(id))
      modifies runtime
      ensures Mirrors(Proceed(w, Move.LaunchReturned(id)))
    {
      runtime.MoveTo(Launched);
    }

    /** The start-up failed after the VM was recorded. */
    method FailReadiness(ghost w: World)
      requires Mirrors(w) && Allowed(w, Move.FailReadiness(id))
      modifies runtime
      ensures Mirrors(Proceed(w, Move.FailReadiness(id)))
    {
      runtime.MoveTo(FailCheck);
    }

    method BeginCapture(ghost w: World)
      requires Mirrors(w) && Allowed(w, Move.BeginCapture(id))
      modifies runtime
      ensures Mirrors(Proceed(w, Move.BeginCapture(id)))
    {
      runtime.MoveTo(Upload);
    }

    method AbandonCapture(ghost w: World)
      requires Mirrors(w) && Allowed(w, Move.AbandonCapture(id))
      modifies runtime
      ensures Mirrors(Proceed(w, Move.AbandonCapture(id)))
    {
      runtime.MoveTo(Used);
    }

    method BeginDelete(ghost w: World)
      requires Mirrors(w) && Allowed(w, Move.BeginDelete(id))
      modifies runtime
      ensures Mirrors(Proceed(w, Move.BeginDelete(id)))
    {
      runtime.MoveTo(DeleteCheck);
    }

    /** One request of an upload; the object it begins is that of the next checkpoint. */
    method Transmit(upload: nat, transfer: Transfer, ghost w: World) returns (named: Checkpoint)
      requires Mirrors(w) && Allowed(w, Move.Transmit(id, upload, transfer))
      ensures Mirrors(Proceed(w, Move.Transmit(id, upload, transfer)))
      ensures transfer.BeginUpload? ==>
        Proceed(w, Move.Transmit(id, upload, transfer)).objects[upload].checkpoint == named
    {
      named := NextCheckpoint(runtime.View(), upload);
    }

    method Release(ghost w: World)
      requires Mirrors(w)
      modifies handle
      ensures Allowed(w, Net(CallRelease(id))) && Mirrors(Proceed(w, Net(CallRelease(id))))
    {
      handle.Release();
    }

    method ReleaseSettled(ghost w: World)
      requires Mirrors(w) && Allowed(w, Net(Step.ReleaseSettled(id)))
      modifies handle
      ensures Mirrors(Proceed(w, Net(Step.ReleaseSettled(id))))
    {
      handle.Settle();
    }

    /** The turn of this process that a step of the lease protocol stands for. */
    method LeaseTurn(step: Step<Authority>, now: int, ghost w: World)
      requires Mirrors(w) && Allowed(w, Net(step)) && StepOf(step) == Some(id) && !step.Stop? && now == w.net.now
      modifies handle
      ensures Mirrors(Proceed(w, Net(step)))
    {
      match step
      case Enqueue(_, _) => Renew(w);
      case StartNext(_) => var order := StartNext(now, w);
      case WriteFailed(_) => WriteFailed(w);
      case ReleaseSettled(_) => ReleaseSettled(w);
      case Abort(_) => Abort(w);
      case CallRelease(_) => Release(w);
    }

    /** The turn of this process that a move of the world stands for. */
    method OwnTurn(m: Move, now: int, ghost w: World)
      requires Mirrors(w) && Allowed(w, m) && MoverOf(m) == Some(id) && !m.Net? && now == w.net.now
      modifies runtime, handle
      ensures Mirrors(Proceed(w, m))
    {
      match m
      case Confirm(_, choice) => WriteReturned(now, choice, w);
      case Update(_, config, activation) => UpdateState(config, activation, w);
      case SendLaunch(_) => var request := SendLaunch(w);
      case LaunchReturned(_) => LaunchReturned(w);
      case Terminate(_) => var vm := Terminate(w);
      case Terminated(_) => TerminationReturned(w);
      case Deliver(_) => var ok := Deliver(now, w);
      case FailReadiness(_) => FailReadiness(w);
      case BeginCapture(_) => BeginCapture(w);
      case Transmit(_, upload, transfer) => var named := Transmit(upload, transfer, w);
      case Checkpointed(_, upload, tag) => NameCheckpoint(upload, tag, w);
      case AbandonCapture(_) => AbandonCapture(w);
      case BeginDelete(_) => BeginDelete(w);
    }

    /** Whatever all processes, the store and the clock do, this process's objects go through it turn by
        turn and mirror the world after every move until it crashes. */
    method Follow(moves: seq<Move>, start: int, ghost w: World) returns (now: int)
      requires Mirrors(w) && Behaves(w, moves) && start == w.net.now
      requires forall k | 0 <= k < |moves| :: moves[k] != Net(Step.Stop(id))
      modifies runtime, handle
      ensures Mirrors(Outcome(w, moves)) && now == Outcome(w, moves).net.now
    {
      now := start;
      ghost var v := w;
      for k := 0 to |moves|
        invariant Mirrors(v) && now == v.net.now && Behaves(v, moves[k..])
        invariant Outcome(v, moves[k..]) == Outcome(w, moves)
      {
        var m := moves[k];
        assert moves[k..][0] == m && moves[k..][1..] == moves[k + 1..];
        if MoverOf(m) != Some(id) {
          OthersLeave(v, m, id);
        } else if m.Net? {
          LeaseTurn(m.step, now, v);
        } else {
          OwnTurn(m, now, v);
        }
        ClockMoves(v, m);
        if m.Net? && m.step.Tick? { now := m.step.now; }
        v := Proceed(v, m);
      }
      assert moves[|moves|..] == [];
    }
  }

  /** While a delivered handle's own objects pass the lease check, nobody has dispatched a termination of
      its VM. */
  lemma MirroredHandleIsSafe(driver: Driver, w: World, moves: seq<Move>, other: nat)
    requires InitWorld(w) && Behaves(w, moves) && driver.Mirrors(Outcome(w, moves))
    requires driver.runtime.stage.Live? && Passes(driver.handle.View(), Outcome(w, moves).net.now)
    ensures (other, Vm(driver.runtime.token)) !in Outcome(w, moves).terminations
  {
    NoLiveHandleLosesItsVm(w, moves, driver.id, other);
  }
}

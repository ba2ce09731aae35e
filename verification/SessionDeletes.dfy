/**
 What a delete erases. A delete that has to take the lease again may find another holder's session; it
 erases the session its handle knew and no other.
 */
module SessionDeletes {
  import opened Common
  import opened Lease
  import opened LeaseProtocol
  import opened Session
  import opened SessionProtocol
  import opened SessionSafety

  function TagOf(metadata: Option<Metadata>): Option<nat> {
    if metadata.Some? then Some(metadata.value.tag) else None
  }

  /** Whatever the process published, it published over metadata with the tag. */
  predicate PublishesOver(writes: seq<Write>, id: nat, tag: Option<nat>) {
    forall k | 0 <= k < |writes| && writes[k].owner == id && writes[k].kind == Publication ::
      TagOf(MetadataOf(StateOf(writes[k].guard))) == tag
  }

  predicate DeletingProc(p: Proc, tag: Option<nat>) {
    p.role == Redelete(tag) && (p.stage.Waiting? || p.stage.Admit? || p.stage.Erase? || p.stage.Closed?)
  }

  /** A process that deletes what has the tag. */
  ghost predicate Deleting(w: World, id: nat, tag: Option<nat>) {
    && id in w.procs && DeletingProc(w.procs[id], tag)
    && PublishesOver(w.net.puts, id, tag) && PublishesOver(w.net.log, id, tag)
    && (Holds(w.net, id) ==> KnowsTag(LeaseOf(w.net, id), w.procs[id], tag))
  }

  /** A process about to erase has seen the tag in the document its lease rests on. */
  predicate KnowsTag(l: Local<Authority>, p: Proc, tag: Option<nat>) {
    p.stage.Erase? && !l.aborted ==> TagOf(MetadataOf(l.document.state)) == tag
  }

  lemma HeldDeletes(w: World, w': World, id: nat, l': Local<Authority>, p': Proc, tag: Option<nat>)
    requires Deleting(w, id, tag) && Holds(w.net, id) && w'.net == WithLease(w.net, id, l')
    requires w'.procs == w.procs[id := p'] && DeletingProc(p', tag) && KnowsTag(l', p', tag)
    ensures Deleting(w', id, tag)
  {
  }

  lemma DeliverDeletes(w: World, k: nat, id: nat, tag: Option<nat>)
    requires Deleting(w, id, tag) && Allowed(w, Net(Step.Deliver(k)))
    ensures Deleting(Proceed(w, Net(Step.Deliver(k))), id, tag)
  {
  }

  /** The only thing such a process publishes is an erasure, once it is there. */
  lemma StartsOver(net: Network, id: nat, p: Proc, tag: Option<nat>)
    requires Enabled(net, StartNext(id)) && DeletingProc(p, tag) && KnowsTag(LeaseOf(net, id), p, tag)
    requires LeaseInv(net.durable, net.now, net.puts, id, LeaseOf(net, id), net.clients[id].put)
    requires PublishesOver(net.puts, id, tag)
    requires var l := LeaseOf(net, id); !l.aborted && l.queue[0].Publish? ==> Publishes(p.stage)
    ensures PublishesOver(Apply(net, StartNext(id)).puts, id, tag)
  {
  }

  lemma OnlyErasurePublishes(w: World, id: nat)
    requires WorldInv(w) && id in w.procs && Enabled(w.net, StartNext(id))
    ensures var l := LeaseOf(w.net, id); !l.aborted && l.queue[0].Publish? ==> Publishes(w.procs[id].stage)
    ensures LeaseInv(w.net.durable, w.net.now, w.net.puts, id, LeaseOf(w.net, id), w.net.clients[id].put)
  {
    var l := LeaseOf(w.net, id);
    assert ProcInv(w.net.origin, w.net.log, w.net.puts, w.terminations, id, w.net.clients[id], w.procs[id]);
    assert Known(w.net.durable, w.net.now, w.net.store, w.net.puts, id, w.net.clients[id]);
    assert l.queue[0] in l.queue;
  }

  lemma StartDeletes(w: World, id: nat, tag: Option<nat>)
    requires WorldInv(w) && Deleting(w, id, tag) && Allowed(w, Net(StartNext(id)))
    ensures Deleting(Proceed(w, Net(StartNext(id))), id, tag)
  {
    OnlyErasurePublishes(w, id);
    StartsOver(w.net, id, w.procs[id], tag);
  }

  lemma OwnLeaseDeletes(w: World, step: Step<Authority>, id: nat, tag: Option<nat>)
    requires WorldInv(w) && Deleting(w, id, tag) && Allowed(w, Net(step))
    requires !step.Tick? && !step.Deliver? && step.id == id
    ensures Deleting(Proceed(w, Net(step)), id, tag)
  {
    if step.StartNext? {
      StartDeletes(w, id, tag);
    } else if Holds(w.net, id) && !step.Stop? {
      QuietLease(w, step);
      HeldDeletes(w, Proceed(w, Net(step)), id, LeaseOf(Apply(w.net, step), id), w.procs[id], tag);
    } else {
      ApproachDeletes(w, step, id, tag);
    }
  }

  lemma ApproachDeletes(w: World, step: Step<Authority>, id: nat, tag: Option<nat>)
    requires Deleting(w, id, tag) && Allowed(w, Net(step)) && !step.Tick? && !step.Deliver? && step.id == id
    requires step.Stop? || !Holds(w.net, id)
    ensures Deleting(Proceed(w, Net(step)), id, tag)
  {
  }

  /** One client's step sends at most one write, its own, and leaves the other clients alone. */
  lemma OthersSend(net: Network, step: Step<Authority>, id: nat)
    requires Enabled(net, step) && !step.Tick? && !step.Deliver? && step.id != id
    ensures var net' := Apply(net, step);
      && net'.log == net.log && |net.puts| <= |net'.puts| && net'.puts[..|net.puts|] == net.puts
      && (forall k | |net.puts| <= k < |net'.puts| :: net'.puts[k].owner == step.id)
      && (Holds(net', id) ==> Holds(net, id) && net'.clients[id] == net.clients[id])
  {
  }

  lemma OthersLeaseDeletes(w: World, step: Step<Authority>, id: nat, tag: Option<nat>)
    requires Deleting(w, id, tag) && Enabled(w.net, step) && !step.Tick? && !step.Deliver? && step.id != id
    ensures Deleting(w.(net := Apply(w.net, step)), id, tag)
  {
    OthersSend(w.net, step, id);
    var net' := Apply(w.net, step);
    forall k | 0 <= k < |net'.puts| && net'.puts[k].owner == id && net'.puts[k].kind == Publication
      ensures TagOf(MetadataOf(StateOf(net'.puts[k].guard))) == tag
    {
      assert net'.puts[k] == net'.puts[..|w.net.puts|][k] == w.net.puts[k];
    }
  }

  lemma VerifiedDeletes(p: Proc, state: Option<Authority>, choice: bool, tag: Option<nat>)
    requires DeletingProc(p, tag) && (p.stage.Erase? ==> TagOf(MetadataOf(state)) == tag)
    ensures DeletingProc(Verified(p, state, choice), tag)
    ensures Verified(p, state, choice).stage.Erase? ==> TagOf(MetadataOf(state)) == tag
  {
  }

  lemma ConfirmDeletes(w: World, id: nat, choice: bool, tag: Option<nat>)
    requires WorldInv(w) && Deleting(w, id, tag) && Allowed(w, Confirm(id, choice))
    ensures Deleting(Proceed(w, Confirm(id, choice)), id, tag)
  {
    var l := LeaseOf(w.net, id);
    ConfirmShape(w, id, choice);
    assert Known(w.net.durable, w.net.now, w.net.store, w.net.puts, id, w.net.clients[id]);
    ConfirmKnows(l, w.procs[id], w.net.now, choice, tag);
    HeldDeletes(w, Proceed(w, Confirm(id, choice)), id, Confirmed(l, w.net.now), ConfirmedProc(w, id, choice), tag);
  }

  lemma ConfirmKnows(l: Local<Authority>, p: Proc, now: int, choice: bool, tag: Option<nat>)
    requires DeletingProc(p, tag) && KnowsTag(l, p, tag) && l.operation.Writing?
    requires l.operation.next.state == Payload(l, l.operation.request)
    ensures var l' := Confirmed(l, now);
      var p' := if l'.aborted then p
                else if l.operation.request.Publish? then Published(p, l.operation.request.state)
                else Verified(p, l.document.state, choice);
      DeletingProc(p', tag) && KnowsTag(l', p', tag)
  {
    if !Confirmed(l, now).aborted { VerifiedDeletes(p, l.document.state, choice, tag); }
  }

  lemma UpdateDeletes(w: World, m: Move, id: nat, tag: Option<nat>)
    requires Deleting(w, id, tag) && Allowed(w, m) && m.Update? && m.id == id
    ensures Deleting(Proceed(w, m), id, tag)
  {
    var l' := Enqueued(LeaseOf(w.net, id), Publish(ProposalNow(w, id, m.config, m.activation)));
    HeldDeletes(w, Proceed(w, m), id, l', Proceed(w, m).procs[id], tag);
  }

  lemma GrantDeletes(w: World, id: nat, tag: Option<nat>)
    requires Deleting(w, id, tag) && Allowed(w, Grant(id))
    ensures Deleting(Proceed(w, Grant(id)), id, tag)
  {
  }

  /** It never gets to any other move of its own. */
  lemma OnlyTheseMoves(w: World, m: Move, id: nat, tag: Option<nat>)
    requires Deleting(w, id, tag) && Allowed(w, m) && !m.Net? && m.id == id && id in w.net.clients
    ensures m.Confirm? || m.Update? || m.Grant?
  {
  }

  lemma OwnMoveDeletes(w: World, m: Move, id: nat, tag: Option<nat>)
    requires WorldInv(w) && Deleting(w, id, tag) && Allowed(w, m) && !m.Net? && m.id == id
    ensures Deleting(Proceed(w, m), id, tag)
  {
    OnlyTheseMoves(w, m, id, tag);
    if m.Confirm? { ConfirmDeletes(w, id, m.choice, tag); }
    else if m.Update? { UpdateDeletes(w, m, id, tag); }
    else { GrantDeletes(w, id, tag); }
  }

  lemma OthersMoveDeletes(w: World, m: Move, id: nat, tag: Option<nat>)
    requires Deleting(w, id, tag) && Allowed(w, m) && !m.Net? && m.id != id
    ensures Deleting(Proceed(w, m), id, tag)
  {
    NetProceeds(w, m);
    OthersLeaveProcess(w, m, id);
    if NetStep(w, m).Some? {
      StepOfMover(w, m);
      OthersLeaseDeletes(w, NetStep(w, m).value, id, tag);
    }
  }

  lemma MoveDeletes(w: World, m: Move, id: nat, tag: Option<nat>)
    requires WorldInv(w) && Deleting(w, id, tag) && Allowed(w, m)
    ensures Deleting(Proceed(w, m), id, tag)
  {
    if !m.Net? {
      if m.id == id { OwnMoveDeletes(w, m, id, tag); } else { OthersMoveDeletes(w, m, id, tag); }
    } else if m.step.Deliver? {
      DeliverDeletes(w, m.step.put, id, tag);
    } else if !m.step.Tick? {
      if m.step.id == id { OwnLeaseDeletes(w, m.step, id, tag); } else { OthersLeaseDeletes(w, m.step, id, tag); }
    }
  }

  lemma {:induction false} RunDeletes(w: World, moves: seq<Move>, id: nat, tag: Option<nat>)
    requires WorldInv(w) && Deleting(w, id, tag) && Behaves(w, moves)
    ensures Deleting(Outcome(w, moves), id, tag)
    decreases |moves|
  {
    if moves != [] {
      MoveKeeps(w, moves[0]);
      MoveDeletes(w, moves[0], id, tag);
      RunDeletes(Proceed(w, moves[0]), moves[1..], id, tag);
    }
  }

  lemma OpenedDeletes(w: World, id: nat, ttl: nat, handle: nat)
    requires WorldInv(w) && Allowed(w, OpenDelete(id, ttl, handle))
    ensures Deleting(Proceed(w, OpenDelete(id, ttl, handle)), id, TagOf(w.procs[handle].metadata))
  {
    NewcomerIsInnocent(w, id);
    assert forall k | 0 <= k < |w.net.log| :: w.net.log[k].owner != id by {
      forall k | 0 <= k < |w.net.log| ensures w.net.log[k].owner != id {
        assert Entry(w.net.durable, w.net.clients.Keys, w.net.origin, w.net.log, k);
      }
    }
  }

  /** In every run, whatever a delete that took the lease again ever publishes, it publishes over metadata
      with the tag its handle knew: it never erases a session that replaced that one. */
  lemma RetriedDeleteErasesItsOwn(w: World, before: seq<Move>, id: nat, ttl: nat, handle: nat, after: seq<Move>, k: nat)
    requires InitWorld(w) && Behaves(w, before) && Allowed(Outcome(w, before), OpenDelete(id, ttl, handle))
    requires Behaves(Proceed(Outcome(w, before), OpenDelete(id, ttl, handle)), after)
    requires var e := Outcome(Proceed(Outcome(w, before), OpenDelete(id, ttl, handle)), after);
      k < |e.net.log| && e.net.log[k].owner == id && e.net.log[k].kind == Publication
    ensures var e := Outcome(Proceed(Outcome(w, before), OpenDelete(id, ttl, handle)), after);
      TagOf(MetadataOf(StateOf(e.net.log[k].guard))) == TagOf(Outcome(w, before).procs[handle].metadata)
  {
    InitInv(w.net);
    BehaviourKeeps(w, before);
    var v := Outcome(w, before);
    MoveKeeps(v, OpenDelete(id, ttl, handle));
    OpenedDeletes(v, id, ttl, handle);
    RunDeletes(Proceed(v, OpenDelete(id, ttl, handle)), after, id, TagOf(v.procs[handle].metadata));
  }
}

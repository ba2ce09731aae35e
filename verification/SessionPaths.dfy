/**
 Where the turns of one process lead when nothing disturbs it: a create delivers a handle on a VM of its
 own, a pending launch is adopted, a recorded VM is retired first, and captures, failures, deletes and late
 results end as they should.
 */
module SessionPaths {
  import opened Common
  import opened Lease
  import opened LeaseProtocol
  import opened Session
  import opened SessionProtocol
  import opened SessionSafety

  type Moves = seq<Move>

  /** Some run ends in this world. */
  ghost predicate Reached(w: World) {
    exists start: World, moves: Moves :: InitWorld(start) && Behaves(start, moves) && w == Outcome(start, moves)
  }

  lemma ReachedInv(w: World)
    requires Reached(w)
    ensures WorldInv(w)
  {
    var start: World, moves: Moves :| InitWorld(start) && Behaves(start, moves) && w == Outcome(start, moves);
    InitInv(start.net);
    BehaviourKeeps(start, moves);
  }

  lemma ReachedNext(w: World, m: Move)
    requires Reached(w) && Allowed(w, m)
    ensures Reached(Proceed(w, m))
  {
    var start: World, moves: Moves :| InitWorld(start) && Behaves(start, moves) && w == Outcome(start, moves);
    Single(w, m);
    Joined(start, moves, [m]);
    assert Proceed(w, m) == Outcome(start, moves + [m]);
  }

  /** The process holds its lease, has nothing in flight, and the store has its document. */
  ghost predicate Alone(w: World, id: nat) {
    && Reached(w) && id in w.procs && Holds(w.net, id) && w.procs[id].pending.None?
    && LeaseOf(w.net, id).operation.Idle? && LeaseOf(w.net, id).queue == []
    && Passes(LeaseOf(w.net, id), w.net.now) && w.net.store == Some(LeaseOf(w.net, id).document)
  }

  function StateAt(w: World, id: nat): Option<Authority>
    requires Holds(w.net, id)
  {
    LeaseOf(w.net, id).document.state
  }

  function GenerationAt(w: World, id: nat): nat
    requires Holds(w.net, id)
  {
    LeaseOf(w.net, id).document.generation
  }

  /** Nothing but the process and the lease document differs. */
  predicate OnlyOwn(w: World, v: World, id: nat) {
    && id in v.procs && v.procs == w.procs[id := v.procs[id]]
    && v.terminations == w.terminations && v.launches == w.launches && v.objects == w.objects
  }

  /** The moves lead from `w` to `v`, with the process undisturbed again under the same generation. */
  ghost predicate Leads(w: World, moves: Moves, v: World, id: nat) {
    && Behaves(w, moves) && v == Outcome(w, moves)
    && Alone(w, id) && Alone(v, id) && GenerationAt(v, id) == GenerationAt(w, id)
  }

  lemma {:induction false} Joined(w: World, a: Moves, b: Moves)
    requires Behaves(w, a) && Behaves(Outcome(w, a), b)
    ensures Behaves(w, a + b) && Outcome(w, a + b) == Outcome(Outcome(w, a), b)
    decreases |a|
  {
    if a == [] {
      assert a + b == b;
    } else {
      Joined(Proceed(w, a[0]), a[1..], b);
      assert (a + b)[1..] == a[1..] + b && (a + b)[0] == a[0];
    }
  }

  lemma Then(w: World, a: Moves, u: World, b: Moves, v: World, id: nat) returns (moves: Moves)
    requires Leads(w, a, u, id) && Leads(u, b, v, id)
    ensures moves == a + b && Leads(w, moves, v, id)
  {
    moves := a + b;
    Joined(w, a, b);
  }

  /** The same where only the process and its document differ. */
  lemma ThenOwn(w: World, a: Moves, u: World, b: Moves, v: World, id: nat) returns (moves: Moves)
    requires Leads(w, a, u, id) && Leads(u, b, v, id) && OnlyOwn(w, u, id) && OnlyOwn(u, v, id)
    ensures moves == a + b && Leads(w, moves, v, id) && OnlyOwn(w, v, id)
  {
    moves := Then(w, a, u, b, v, id);
  }

  lemma Single(w: World, m: Move)
    requires Allowed(w, m)
    ensures Behaves(w, [m]) && Outcome(w, [m]) == Proceed(w, m)
  {
    assert [m][1..] == [];
    assert Outcome(Proceed(w, m), []) == Proceed(w, m);
  }

  // ------------------------------------------------------------------ Rounds

  /** The request at the head of the queue is all there is. */
  ghost predicate Asked(w: World, id: nat, request: Lease.Request<Authority>) {
    && Reached(w) && id in w.procs && Holds(w.net, id) && !request.Relinquish?
    && LeaseOf(w.net, id).operation.Idle? && LeaseOf(w.net, id).queue == [request]
    && Passes(LeaseOf(w.net, id), w.net.now) && w.net.store == Some(LeaseOf(w.net, id).document)
  }

  function Answered(w: World, id: nat, choice: bool): Moves {
    [Net(StartNext(id)), Net(Step.Deliver(|w.net.puts|)), Confirm(id, choice)]
  }

  lemma SentRequest(w: World, id: nat, request: Lease.Request<Authority>)
    requires Asked(w, id, request)
    ensures Allowed(w, Net(StartNext(id)))
    ensures var l, v := LeaseOf(w.net, id), Proceed(w, Net(StartNext(id)));
      && v == w.(net := v.net) && v.net.now == w.net.now && v.net.store == w.net.store && Holds(v.net, id)
      && LeaseOf(v.net, id) == Started(l, w.net.now) && v.net.clients[id].put == |w.net.puts|
      && LeaseOf(v.net, id).operation == Writing(request, Renewed(l, w.net.now, Payload(l, request)))
      && |v.net.puts| == |w.net.puts| + 1 && v.net.puts[|w.net.puts|].status == Pending
      && v.net.puts[|w.net.puts|].guard == v.net.store
      && v.net.puts[|w.net.puts|].next == Some(LeaseOf(v.net, id).operation.next)
  {
    ReachedInv(w);
    assert Known(w.net.durable, w.net.now, w.net.store, w.net.puts, id, w.net.clients[id]);
  }

  lemma StoredRequest(v: World, id: nat, k: nat)
    requires k < |v.net.puts| && v.net.puts[k].status == Pending && v.net.puts[k].guard == v.net.store
    requires id in v.procs && Holds(v.net, id) && v.net.clients[id].put == k && LeaseOf(v.net, id).operation.Writing?
    ensures Allowed(v, Net(Step.Deliver(k)))
    ensures var u := Proceed(v, Net(Step.Deliver(k)));
      && u == v.(net := u.net) && u.net.now == v.net.now && u.net.clients == v.net.clients
      && u.net.store == v.net.puts[k].next && (forall choice :: Allowed(u, Confirm(id, choice)))
  {
  }

  /** What the process is after its request was stored and confirmed. */
  function After(p: Proc, request: Lease.Request<Authority>, state: Option<Authority>, choice: bool): Proc {
    if request.Publish? then Published(p, request.state) else Verified(p, state, choice)
  }

  lemma ConfirmedRequest(u: World, id: nat, choice: bool)
    requires Allowed(u, Confirm(id, choice)) && Passes(LeaseOf(u.net, id), u.net.now)
    requires u.net.now < LeaseOf(u.net, id).operation.next.expiresAt
    ensures var l, x := LeaseOf(u.net, id), Proceed(u, Confirm(id, choice));
      && x == u.(net := x.net, procs := x.procs) && x.net.store == u.net.store && x.net.now == u.net.now
      && Holds(x.net, id) && LeaseOf(x.net, id).document == l.operation.next && LeaseOf(x.net, id).queue == l.queue
      && LeaseOf(x.net, id).operation.Idle? && Passes(LeaseOf(x.net, id), x.net.now)
      && LeaseOf(x.net, id).deadline == l.deadline
      && x.procs == u.procs[id := After(u.procs[id], l.operation.request, l.document.state, choice)]
  {
  }

  lemma RequestRound(w: World, id: nat, request: Lease.Request<Authority>, choice: bool) returns (x: World)
    requires Asked(w, id, request)
    ensures Behaves(w, Answered(w, id, choice)) && x == Outcome(w, Answered(w, id, choice)) && Reached(x)
    ensures x == w.(net := x.net, procs := w.procs[id := After(w.procs[id], request, StateAt(w, id), choice)])
    ensures x.net.now == w.net.now && Holds(x.net, id) && x.net.store == Some(LeaseOf(x.net, id).document)
    ensures LeaseOf(x.net, id).operation.Idle? && LeaseOf(x.net, id).queue == []
    ensures Passes(LeaseOf(x.net, id), x.net.now) && GenerationAt(x, id) == GenerationAt(w, id)
    ensures StateAt(x, id) == Payload(LeaseOf(w.net, id), request)
    ensures LeaseOf(x.net, id).deadline == LeaseOf(w.net, id).deadline
  {
    SentRequest(w, id, request);
    var v := Proceed(w, Net(StartNext(id)));
    ReachedNext(w, Net(StartNext(id)));
    StoredRequest(v, id, |w.net.puts|);
    var u := Proceed(v, Net(Step.Deliver(|w.net.puts|)));
    ReachedNext(v, Net(Step.Deliver(|w.net.puts|)));
    RenewedLater(w, id, request);
    ConfirmedRequest(u, id, choice);
    x := Proceed(u, Confirm(id, choice));
    ReachedNext(u, Confirm(id, choice));
    ThreeMoves(w, Net(StartNext(id)), Net(Step.Deliver(|w.net.puts|)), Confirm(id, choice));
  }

  lemma RenewedLater(w: World, id: nat, request: Lease.Request<Authority>)
    requires Asked(w, id, request)
    ensures w.net.now < Renewed(LeaseOf(w.net, id), w.net.now, Payload(LeaseOf(w.net, id), request)).expiresAt
  {
    ReachedInv(w);
    assert Known(w.net.durable, w.net.now, w.net.store, w.net.puts, id, w.net.clients[id]);
  }

  lemma ThreeMoves(w: World, a: Move, b: Move, c: Move)
    requires Allowed(w, a) && Allowed(Proceed(w, a), b) && Allowed(Proceed(Proceed(w, a), b), c)
    ensures Behaves(w, [a, b, c]) && Outcome(w, [a, b, c]) == Proceed(Proceed(Proceed(w, a), b), c)
  {
    Single(w, a);
    Single(Proceed(w, a), b);
    Single(Proceed(Proceed(w, a), b), c);
    Joined(Proceed(w, a), [b], [c]);
    Joined(w, [a], [b, c]);
    assert [b] + [c] == [b, c] && [a] + [b, c] == [a, b, c];
  }

  lemma AskedToPublish(w: World, id: nat, config: nat, activation: nat)
    requires Alone(w, id) && Publishes(w.procs[id].stage)
    requires w.procs[id].stage.Request? ==> ConfigAgrees(StateAt(w, id), config)
    ensures Allowed(w, Update(id, config, activation))
    ensures var v, state := Proceed(w, Update(id, config, activation)), ProposalNow(w, id, config, activation);
      && Asked(v, id, Publish(state))
      && v == w.(net := v.net, procs := w.procs[id := w.procs[id].(
                   pending := Some(state), config := config, activation := activation)])
      && LeaseOf(v.net, id) == Enqueued(LeaseOf(w.net, id), Publish(state))
  {
    ReachedNext(w, Update(id, config, activation));
  }

  lemma AskedToVerify(w: World, id: nat)
    requires Alone(w, id)
    ensures Allowed(w, Net(Enqueue(id, Request<Authority>.Renew)))
    ensures var v := Proceed(w, Net(Enqueue(id, Request<Authority>.Renew)));
      && Asked(v, id, Renew) && v == w.(net := v.net)
      && LeaseOf(v.net, id) == Enqueued(LeaseOf(w.net, id), Renew)
  {
    ReachedNext(w, Net(Enqueue(id, Request<Authority>.Renew)));
  }

  /** Asking and having the request answered. */
  lemma AskRound(w: World, ask: Move, id: nat, request: Lease.Request<Authority>, choice: bool)
    returns (moves: Moves, x: World)
    requires Allowed(w, ask) && Asked(Proceed(w, ask), id, request)
    ensures var v := Proceed(w, ask);
      && Behaves(w, moves) && x == Outcome(w, moves) && Reached(x)
      && x == v.(net := x.net, procs := v.procs[id := After(v.procs[id], request, StateAt(v, id), choice)])
      && Holds(x.net, id) && x.net.store == Some(LeaseOf(x.net, id).document)
      && LeaseOf(x.net, id).operation.Idle? && LeaseOf(x.net, id).queue == []
      && Passes(LeaseOf(x.net, id), x.net.now) && GenerationAt(x, id) == GenerationAt(v, id)
      && StateAt(x, id) == Payload(LeaseOf(v.net, id), request)
      && LeaseOf(x.net, id).deadline == LeaseOf(v.net, id).deadline
  {
    var v := Proceed(w, ask);
    x := RequestRound(v, id, request, choice);
    Single(w, ask);
    Joined(w, [ask], Answered(v, id, choice));
    moves := [ask] + Answered(v, id, choice);
  }

  /** The process has the stage's state stored. */
  lemma Publishing(w: World, id: nat, config: nat, activation: nat) returns (moves: Moves, v: World, state: Authority)
    requires Alone(w, id) && Publishes(w.procs[id].stage)
    requires w.procs[id].stage.Request? ==> ConfigAgrees(StateAt(w, id), config)
    ensures Leads(w, moves, v, id)
    ensures var p := w.procs[id].(config := config, activation := activation);
      && state == Proposal(p, GenerationAt(w, id), StateAt(w, id)) && StateAt(v, id) == Some(state)
      && OnlyOwn(w, v, id) && v.procs[id] == Published(p, state)
    ensures LeaseOf(v.net, id).deadline == LeaseOf(w.net, id).deadline
  {
    AskedToPublish(w, id, config, activation);
    state := ProposalNow(w, id, config, activation);
    moves, v := AskRound(w, Update(id, config, activation), id, Publish(state), true);
    var p := w.procs[id].(config := config, activation := activation);
    PendingForgotten(p, state);
    TwiceUpdated(w.procs, id, p.(pending := Some(state)), Published(p, state));
  }

  lemma TwiceUpdated(procs: map<nat, Proc>, id: nat, p: Proc, q: Proc)
    ensures procs[id := p][id := q] == procs[id := q]
  {
  }

  lemma PendingForgotten(p: Proc, state: Authority)
    requires Publishes(p.stage)
    ensures Published(p.(pending := Some(state)), state) == Published(p, state) && Published(p, state).pending.None?
  {
  }

  lemma NothingPending(p: Proc, state: Option<Authority>, choice: bool)
    ensures Verified(p, state, choice).pending == p.pending
  {
  }

  /** The process has its ownership verified. */
  lemma Verifying(w: World, id: nat, choice: bool) returns (moves: Moves, v: World)
    requires Alone(w, id)
    ensures Leads(w, moves, v, id) && StateAt(v, id) == StateAt(w, id)
    ensures OnlyOwn(w, v, id) && v.procs[id] == Verified(w.procs[id], StateAt(w, id), choice)
    ensures LeaseOf(v.net, id).deadline == LeaseOf(w.net, id).deadline
  {
    AskedToVerify(w, id);
    moves, v := AskRound(w, Net(Enqueue(id, Request<Authority>.Renew)), id, Renew, choice);
    NothingPending(w.procs[id], StateAt(w, id), choice);
  }

  /** A move of the process itself, which leaves its lease alone. */
  lemma Moving(w: World, id: nat, m: Move) returns (moves: Moves, v: World)
    requires Alone(w, id) && Allowed(w, m) && OwnMove(m) && m.id == id
    ensures moves == [m] && Leads(w, moves, v, id) && v == Proceed(w, m) && v.net == w.net
  {
    moves, v := [m], Proceed(w, m);
    Single(w, m);
    ReachedNext(w, m);
    NetProceeds(w, m);
    OwnMoveKeepsPending(w, m);
  }

  lemma OwnMoveKeepsPending(w: World, m: Move)
    requires Allowed(w, m) && OwnMove(m)
    ensures m.id in Proceed(w, m).procs && Proceed(w, m).procs[m.id].pending == w.procs[m.id].pending
  {
  }
}

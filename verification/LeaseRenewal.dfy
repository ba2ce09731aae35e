/**
 What holding on to a lease achieves: a lease that was acquired or renewed in time is its holder's for a
 full term, unless the launch deadline cuts it short, and a lease that was given up is free at once.
 */
module LeaseRenewal {
  import opened Common
  import opened Lease
  import opened LeaseProtocol

  /** `until` is no later than a term from `now` and no later than the deadline. */
  predicate WithinTerm(until: int, now: int, ttl: nat, deadline: Deadline) {
    until <= now + ttl && (deadline.Some? ==> until <= deadline.value)
  }

  // ------------------------------------------------------------------ One renewal

  /** A renewal or publication started in time and confirmed in time lets the lease pass for a term from
      when it started, as long as the deadline allows. */
  lemma RenewalRenews<S>(l: Local<S>, sent: int, got: int, later: int)
    requires l.operation.Idle? && l.queue != [] && !l.queue[0].Relinquish? && Passes(l, sent)
    requires sent <= got < l.document.expiresAt && got <= later < sent + l.ttl && Before(later, l.deadline)
    ensures Passes(Confirmed(Started(l, sent), got), later)
  {
  }

  /** Once promoted, a lease is renewed past its launch deadline. */
  lemma PromotedRenewalRenews<S>(l: Local<S>, handed: int, sent: int, got: int, later: int)
    requires l.operation.Idle? && l.queue != [] && !l.queue[0].Relinquish?
    requires Passes(l, handed) && handed <= sent <= got < l.document.expiresAt && got <= later < sent + l.ttl
    ensures Passes(Confirmed(Started(Promoted(l, handed), sent), got), later)
  {
    RenewalRenews(Promoted(l, handed), sent, got, later);
  }

  /** A response that comes when the previous expiry has passed does not bring the lease back. */
  lemma LateResponseAborts<S>(l: Local<S>, got: int, later: int)
    requires l.operation.Writing? && l.document.expiresAt <= got
    ensures !Passes(Confirmed(l, got), later)
  {
  }

  /** Requests start in the order in which they were made. */
  lemma FirstComeFirstServed<S>(l: Local<S>, first: Request<S>, more: Request<S>, now: int)
    requires l.operation.Idle? && l.queue == [] && Passes(l, now) && !first.Relinquish?
    ensures var started := Started(Enqueued(Enqueued(l, first), more), now);
      started.operation.Writing? && started.operation.request == first && started.queue == [more]
  {
  }

  // ------------------------------------------------------------------ The lease in runs

  /** The client's lease, once it has it, does not end before `until`: the document says so, or the write
      `pending` will. */
  predicate Covered<S>(s: Sys<S>, id: nat, pending: Option<nat>, until: int) {
    id in s.clients &&
    match s.clients[id]
    case Trying(ttl, deadline) => WithinTerm(until, s.now, ttl, deadline)
    case Fetched(ttl, deadline, _) => WithinTerm(until, s.now, ttl, deadline)
    case Acquiring(ttl, deadline, put) =>
      && WithinTerm(until, s.now, ttl, deadline)
      && put < |s.puts| && s.puts[put].next.Some? && until <= s.puts[put].next.value.expiresAt
    case Holding(l, put) =>
      && (l.deadline.Some? ==> until <= l.deadline.value)
      && (l.aborted || until <= l.document.expiresAt
          || (l.operation.Writing? && pending == Some(put) && until <= l.operation.next.expiresAt))
    case Gone => true
  }

  lemma ApproachCovers<S>(s: Sys<S>, step: Step<S>, id: nat, pending: Option<nat>, until: int)
    requires Enabled(s, step) && Covered(s, id, pending, until)
    requires !step.Tick? && !step.Deliver? && !step.Begin? && step.id == id && !Holds(s, id)
    ensures Covered(Apply(s, step), id, pending, until)
  {
  }

  lemma HeldCovers<S>(s: Sys<S>, step: Step<S>, id: nat, pending: Option<nat>, until: int)
    requires Inv(s) && Enabled(s, step) && Covered(s, id, pending, until)
    requires !step.Tick? && !step.Deliver? && !step.Begin? && step.id == id && Holds(s, id)
    ensures Covered(Apply(s, step), id, pending, until)
  {
    assert Known(s.durable, s.now, s.store, s.puts, id, s.clients[id]);
    if step.StartNext? { StartCovers(s, id, pending, until); }
  }

  lemma StartCovers<S>(s: Sys<S>, id: nat, pending: Option<nat>, until: int)
    requires Enabled(s, StartNext(id)) && Covered(s, id, pending, until)
    requires Known(s.durable, s.now, s.store, s.puts, id, s.clients[id])
    ensures Covered(Apply(s, StartNext(id)), id, pending, until)
  {
  }

  lemma OtherCovers<S>(s: Sys<S>, step: Step<S>, id: nat, pending: Option<nat>, until: int)
    requires Enabled(s, step) && Covered(s, id, pending, until)
    requires !step.Tick? && !step.Deliver? ==> step.id != id
    ensures Covered(Apply(s, step), id, pending, until)
  {
    if step.Deliver? { assert forall k | 0 <= k < |s.puts| :: Apply(s, step).puts[k].next == s.puts[k].next; }
  }

  lemma StepCovers<S>(s: Sys<S>, step: Step<S>, id: nat, pending: Option<nat>, until: int)
    requires Inv(s) && Enabled(s, step) && Covered(s, id, pending, until)
    ensures Covered(Apply(s, step), id, pending, until)
  {
    if step.Tick? || step.Deliver? || step.id != id {
      OtherCovers(s, step, id, pending, until);
    } else if Holds(s, id) {
      HeldCovers(s, step, id, pending, until);
    } else {
      ApproachCovers(s, step, id, pending, until);
    }
  }

  lemma {:induction false} RunCovers<S>(s: Sys<S>, steps: seq<Step<S>>, id: nat, pending: Option<nat>, until: int)
    requires Inv(s) && Runs(s, steps) && Covered(s, id, pending, until)
    ensures Covered(End(s, steps), id, pending, until)
    decreases |steps|
  {
    if steps != [] {
      StepCovers(s, steps[0], id, pending, until);
      StepInv(s, steps[0]);
      RunCovers(Apply(s, steps[0]), steps[1..], id, pending, until);
    }
  }

  /** A renewal that was started in time and is over has kept the lease, if it was not aborted, for a term
      from the start, whatever else happened meanwhile. */
  lemma RenewalKeepsLease<S>(s: Sys<S>, id: nat, steps: seq<Step<S>>, until: int)
    requires Inv(s) && Enabled(s, StartNext(id)) && Passes(LeaseOf(s, id), s.now)
    requires !LeaseOf(s, id).queue[0].Relinquish?
    requires WithinTerm(until, s.now, LeaseOf(s, id).ttl, LeaseOf(s, id).deadline)
    requires Runs(Apply(s, StartNext(id)), steps)
    ensures var e := End(Apply(s, StartNext(id)), steps);
      Holds(e, id) && !LeaseOf(e, id).aborted && e.now < until
      && !(LeaseOf(e, id).operation.Writing? && e.clients[id].put == |s.puts|)
      ==> Passes(LeaseOf(e, id), e.now)
  {
    var first := Apply(s, StartNext(id));
    StepInv(s, StartNext(id));
    assert Known(s.durable, s.now, s.store, s.puts, id, s.clients[id]);
    RunCovers(first, steps, id, Some(|s.puts|), until);
    RunInv(first, steps);
    StillPasses(End(first, steps), id, Some(|s.puts|), until);
  }

  lemma StillPasses<S>(s: Sys<S>, id: nat, pending: Option<nat>, until: int)
    requires Inv(s) && Covered(s, id, pending, until)
    ensures Holds(s, id) && !LeaseOf(s, id).aborted && s.now < until
      && !(LeaseOf(s, id).operation.Writing? && pending == Some(s.clients[id].put))
      ==> Passes(LeaseOf(s, id), s.now)
  {
    assert Known(s.durable, s.now, s.store, s.puts, id, s.clients[id]);
  }

  /** A client that acquires the lease holds it, unless it is aborted, for a term from when it asked. */
  lemma AcquiredLeasePasses<S>(s: Sys<S>, id: nat, steps: seq<Step<S>>, until: int)
    requires Inv(s) && Enabled(s, SendAcquire(id))
    requires WithinTerm(until, s.now, s.clients[id].ttl, s.clients[id].deadline)
    requires Runs(Apply(s, SendAcquire(id)), steps)
    ensures var e := End(Apply(s, SendAcquire(id)), steps);
      Holds(e, id) && !LeaseOf(e, id).aborted && e.now < until ==> Passes(LeaseOf(e, id), e.now)
  {
    var first := Apply(s, SendAcquire(id));
    StepInv(s, SendAcquire(id));
    RunCovers(first, steps, id, None, until);
    RunInv(first, steps);
    StillPasses(End(first, steps), id, None, until);
  }

  // ------------------------------------------------------------------ The store in runs

  /** The store says that the lease is the client's until then. */
  predicate Secured<S>(s: Sys<S>, id: nat, until: int) {
    s.store.Some? && s.store.value.holder == id && until <= s.store.value.expiresAt
  }

  predicate GivesUp<S>(put: Put<S>, id: nat) {
    put.kind == Release && put.owner == id
  }

  /** The client gave nothing up from the `n`-th write on. */
  predicate KeptSince<S>(log: seq<Put<S>>, n: nat, id: nat) {
    forall j | n <= j < |log| :: !GivesUp(log[j], id)
  }

  /** The write `k` is the client's and extends its lease to `until`; if it took effect, and the client did
      not give the lease up since then, the store says so. */
  predicate Extends<S>(s: Sys<S>, k: nat, id: nat, until: int) {
    && k < |s.puts| && s.puts[k].next.Some? && s.puts[k].next.value.holder == id
    && until <= s.puts[k].next.value.expiresAt
    && (s.puts[k].status == Applied ==> Secured(s, id, until))
  }

  /** Before `until`, only the client itself can end its lease. */
  lemma DeliverySecures<S>(s: Sys<S>, j: nat, k: nat, id: nat, until: int)
    requires Inv(s) && Enabled(s, Deliver(j)) && s.now < until && Extends(s, k, id, until)
    requires s.store == s.puts[j].guard ==> !GivesUp(s.puts[j], id)
    ensures Extends(Apply(s, Deliver(j)), k, id, until)
  {
    assert PutInv(s.durable, s.now, s.clients.Keys, s.puts[j]);
  }

  lemma StepSecures<S>(s: Sys<S>, step: Step<S>, k: nat, id: nat, until: int)
    requires Inv(s) && Enabled(s, step) && s.now < until && Extends(s, k, id, until)
    requires KeptSince(Apply(s, step).log, |s.log|, id)
    ensures Extends(Apply(s, step), k, id, until)
  {
    if step.Deliver? {
      if s.store == s.puts[step.put].guard {
        assert Apply(s, step).log == s.log + [s.puts[step.put]];
        assert Apply(s, step).log[|s.log|] == s.puts[step.put];
      }
      DeliverySecures(s, step.put, k, id, until);
    }
  }

  lemma {:induction false} TimePasses<S>(s: Sys<S>, steps: seq<Step<S>>)
    requires Runs(s, steps)
    ensures s.now <= End(s, steps).now
    decreases |steps|
  {
    if steps != [] { TimePasses(Apply(s, steps[0]), steps[1..]); }
  }

  lemma {:induction false} RunSecures<S>(s: Sys<S>, steps: seq<Step<S>>, k: nat, id: nat, until: int)
    requires Inv(s) && Runs(s, steps) && Extends(s, k, id, until) && End(s, steps).now < until
    requires KeptSince(End(s, steps).log, |s.log|, id)
    ensures Extends(End(s, steps), k, id, until)
    decreases |steps|
  {
    if steps != [] {
      var next := Apply(s, steps[0]);
      StepInv(s, steps[0]);
      StepLog(s, steps[0]);
      RunInv(next, steps[1..]);
      TimePasses(next, steps[1..]);
      TimePasses(s, steps);
      forall j | |s.log| <= j < |next.log| ensures !GivesUp(next.log[j], id) {
        assert next.log[j] == End(s, steps).log[j];
      }
      StepSecures(s, steps[0], k, id, until);
      RunSecures(next, steps[1..], k, id, until);
    }
  }

  /** Once a renewal sent in time took effect, the lease is stored as the holder's, and nobody else's, for a
      term from when it was sent, unless the holder releases it. */
  lemma RenewalSecuresLease<S>(s: Sys<S>, id: nat, steps: seq<Step<S>>, until: int)
    requires Inv(s) && Enabled(s, StartNext(id)) && Passes(LeaseOf(s, id), s.now)
    requires !LeaseOf(s, id).queue[0].Relinquish?
    requires WithinTerm(until, s.now, LeaseOf(s, id).ttl, LeaseOf(s, id).deadline)
    requires Runs(Apply(s, StartNext(id)), steps)
    ensures var e := End(Apply(s, StartNext(id)), steps);
      && |s.puts| < |e.puts|
      && (e.puts[|s.puts|].status == Applied && e.now < until && KeptSince(e.log, |s.log|, id) ==>
            Secured(e, id, until))
  {
    var first := Apply(s, StartNext(id));
    StepInv(s, StartNext(id));
    assert Known(s.durable, s.now, s.store, s.puts, id, s.clients[id]);
    PutsGrow(first, steps);
    var e := End(first, steps);
    if e.now < until && KeptSince(e.log, |s.log|, id) {
      RunSecures(first, steps, |s.puts|, id, until);
    }
  }

  lemma {:induction false} PutsGrow<S>(s: Sys<S>, steps: seq<Step<S>>)
    requires Runs(s, steps)
    ensures |s.puts| <= |End(s, steps).puts|
    decreases |steps|
  {
    if steps != [] { PutsGrow(Apply(s, steps[0]), steps[1..]); }
  }

  /** The same for the write that acquires the lease. */
  lemma AcquisitionSecuresLease<S>(s: Sys<S>, id: nat, steps: seq<Step<S>>, until: int)
    requires Inv(s) && Enabled(s, SendAcquire(id))
    requires WithinTerm(until, s.now, s.clients[id].ttl, s.clients[id].deadline)
    requires Runs(Apply(s, SendAcquire(id)), steps)
    ensures var e := End(Apply(s, SendAcquire(id)), steps);
      && |s.puts| < |e.puts|
      && (e.puts[|s.puts|].status == Applied && e.now < until && KeptSince(e.log, |s.log|, id) ==>
            Secured(e, id, until))
  {
    var first := Apply(s, SendAcquire(id));
    StepInv(s, SendAcquire(id));
    PutsGrow(first, steps);
    var e := End(first, steps);
    if e.now < until && KeptSince(e.log, |s.log|, id) {
      RunSecures(first, steps, |s.puts|, id, until);
    }
  }

  // ------------------------------------------------------------------ Giving up

  lemma {:induction false} AbortedForGood<S>(s: Sys<S>, steps: seq<Step<S>>, id: nat)
    requires Runs(s, steps) && Holds(s, id) && LeaseOf(s, id).aborted
    ensures var e := End(s, steps); Holds(e, id) ==> LeaseOf(e, id).aborted && !Passes(LeaseOf(e, id), e.now)
    decreases |steps|
  {
    if steps != [] {
      var next := Apply(s, steps[0]);
      if Holds(next, id) { AbortedForGood(next, steps[1..], id); } else { GoneForGood(next, steps[1..], id); }
    }
  }

  lemma {:induction false} GoneForGood<S>(s: Sys<S>, steps: seq<Step<S>>, id: nat)
    requires Runs(s, steps) && id in s.clients && s.clients[id].Gone?
    ensures !Holds(End(s, steps), id)
    decreases |steps|
  {
    if steps != [] { GoneForGood(Apply(s, steps[0]), steps[1..], id); }
  }

  lemma ReleaseSent<S>(s: Sys<S>, id: nat)
    requires Holds(s, id) && !LeaseOf(s, id).released
    requires LeaseOf(s, id).operation.Idle? && LeaseOf(s, id).queue == []
    ensures Enabled(Apply(s, CallRelease(id)), StartNext(id))
    ensures var b := Apply(Apply(s, CallRelease(id)), StartNext(id));
      && b.store == s.store && b.now == s.now && b.durable == s.durable
      && |b.puts| == |s.puts| + 1 && b.puts[|s.puts|].status == Pending
      && b.puts[|s.puts|].guard == Some(LeaseOf(s, id).etag)
      && (b.puts[|s.puts|].next.Some? ==> b.puts[|s.puts|].next == Some(LeaseOf(s, id).document.(expiresAt := 0)))
      && (forall j | j != id && j in s.clients :: j in b.clients && b.clients[j] == s.clients[j])
  {
    assert LeaseOf(Apply(s, CallRelease(id)), id).queue == [Relinquish];
  }

  /** A released lease sends its release; once that took effect, whoever looks may acquire at once. */
  lemma ReleaseFreesLease<S>(s: Sys<S>, id: nat, other: nat)
    requires Inv(s) && Holds(s, id) && !LeaseOf(s, id).released && s.now >= 0
    requires LeaseOf(s, id).operation.Idle? && LeaseOf(s, id).queue == [] && s.store == Some(LeaseOf(s, id).document)
    requires Enabled(s, Fetch(other))
    ensures var steps := [CallRelease(id), StartNext(id), Deliver(|s.puts|), Fetch(other)];
      Runs(s, steps) && Enabled(End(s, steps), SendAcquire(other))
  {
    assert Known(s.durable, s.now, s.store, s.puts, id, s.clients[id]);
    ReleaseSent(s, id);
    var b := Apply(Apply(s, CallRelease(id)), StartNext(id));
    FreeToAcquire(b, |s.puts|, other);
    FourSteps(s, CallRelease(id), StartNext(id), Deliver(|s.puts|), Fetch(other));
  }

  lemma FreeToAcquire<S>(s: Sys<S>, k: nat, other: nat)
    requires k < |s.puts| && s.puts[k].status == Pending && s.store == s.puts[k].guard && s.now >= 0
    requires s.puts[k].next.Some? ==> s.puts[k].next.value.expiresAt == 0 && s.puts[k].next.value.durable == s.durable
    requires Enabled(s, Fetch(other))
    ensures Enabled(Apply(s, Deliver(k)), Fetch(other))
    ensures Enabled(Apply(Apply(s, Deliver(k)), Fetch(other)), SendAcquire(other))
  {
  }

  lemma FourSteps<S>(s: Sys<S>, a: Step<S>, b: Step<S>, c: Step<S>, d: Step<S>)
    requires Enabled(s, a) && Enabled(Apply(s, a), b) && Enabled(Apply(Apply(s, a), b), c)
    requires Enabled(Apply(Apply(Apply(s, a), b), c), d)
    ensures Runs(s, [a, b, c, d])
    ensures End(s, [a, b, c, d]) == Apply(Apply(Apply(Apply(s, a), b), c), d)
  {
    assert [a, b, c, d][1..] == [b, c, d] && [b, c, d][1..] == [c, d] && [c, d][1..] == [d] && [d][1..] == [];
    var u := Apply(Apply(s, a), b);
    var t := Apply(u, c);
    assert Runs(t, [d]) && End(t, [d]) == End(Apply(t, d), []) == Apply(t, d);
    assert Runs(u, [c, d]) && End(u, [c, d]) == End(t, [d]);
    assert Runs(Apply(s, a), [b, c, d]) && End(Apply(s, a), [b, c, d]) == End(u, [c, d]);
  }
}

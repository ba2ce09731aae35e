/**
 Any number of runtimes competing for one lease document that is changed only by conditional
 writes. Writes and their responses are delayed arbitrarily, writes may be lost, runtimes may
 stop at any await, and time may pass between any two local steps.
 */
module LeaseProtocol {
  import opened Common
  import opened Lease

  datatype Kind = Acquire | Renewal | Publication | Release

  datatype Status = Pending | Applied | Rejected

  /** A conditional write that left its sender: `guard` is the document whose ETag it names, or
      `None` for a write that requires absence; `next` is `None` for a deletion. */
  datatype Put<S> = Put(owner: nat, kind: Kind, guard: Option<Doc<S>>, next: Option<Doc<S>>, status: Status)

  datatype Client<S> =
    | Trying(ttl: nat, deadline: Deadline)
    | Fetched(ttl: nat, deadline: Deadline, seen: Option<Doc<S>>)
    | Acquiring(ttl: nat, deadline: Deadline, put: nat)
    | Holding(lease: Local<S>, put: nat)
    | Gone

  /** `log` lists the writes that took effect, in the order of effect; `origin` is the document
      found at the start, possibly written by an older runtime. */
  datatype Sys<S> = Sys(
    durable: bool, now: int, origin: Option<Doc<S>>, store: Option<Doc<S>>,
    clients: map<nat, Client<S>>, puts: seq<Put<S>>, log: seq<Put<S>>)

  datatype Step<S> =
    | Tick(now: int)
    | Begin(id: nat, ttl: nat, deadline: Deadline)
    | Fetch(id: nat)
    | Contend(id: nat)
    | SendAcquire(id: nat)
    | AcquireConfirmed(id: nat)
    | AcquireRejected(id: nat)
    | Stop(id: nat)
    | Deliver(put: nat)
    | Enqueue(id: nat, request: Request<S>)
    | StartNext(id: nat)
    | WriteConfirmed(id: nat)
    | WriteFailed(id: nat)
    | ReleaseSettled(id: nat)
    | Abort(id: nat)
    | Promote(id: nat)
    | CallRelease(id: nat)

  predicate Init<S(==)>(s: Sys<S>) {
    s.store == s.origin && s.clients == map[] && s.puts == [] && s.log == []
  }

  predicate Holds<S>(s: Sys<S>, id: nat) {
    id in s.clients && s.clients[id].Holding?
  }

  function LeaseOf<S>(s: Sys<S>, id: nat): Local<S>
    requires Holds(s, id)
  {
    s.clients[id].lease
  }

  /** The document written by a successful acquisition. */
  function Taken<S>(s: Sys<S>, id: nat, ttl: nat, deadline: Deadline, seen: Option<Doc<S>>): Doc<S> {
    Doc(Cap(s.now + ttl, deadline), id,
        if seen.Some? then seen.value.generation + 1 else 1,
        if seen.Some? then seen.value.state else None, s.durable)
  }

  predicate Enabled<S(==)>(s: Sys<S>, step: Step<S>) {
    match step
    case Tick(now) => s.now <= now
    case Begin(id, _, _) => id !in s.clients && (s.origin.Some? ==> s.origin.value.holder != id)
    case Fetch(id) => id in s.clients && s.clients[id].Trying? && Before(s.now, s.clients[id].deadline)
    case Contend(id) => id in s.clients && s.clients[id].Fetched?
        && s.clients[id].seen.Some? && s.now < s.clients[id].seen.value.expiresAt
    case SendAcquire(id) => id in s.clients && s.clients[id].Fetched? && (
        s.clients[id].seen.Some? ==>
          && s.clients[id].seen.value.expiresAt <= s.now
          && (s.clients[id].seen.value.durable ==> s.durable))
    case AcquireConfirmed(id) => id in s.clients && s.clients[id].Acquiring?
        && s.clients[id].put < |s.puts| && s.puts[s.clients[id].put].status == Applied
    case AcquireRejected(id) => id in s.clients && s.clients[id].Acquiring?
        && s.clients[id].put < |s.puts| && s.puts[s.clients[id].put].status == Rejected
    case Stop(id) => id in s.clients
    case Deliver(put) => put < |s.puts| && s.puts[put].status == Pending
    case Enqueue(id, request) => Holds(s, id) && !request.Relinquish?
    case StartNext(id) => Holds(s, id) && LeaseOf(s, id).operation.Idle? && LeaseOf(s, id).queue != []
    case WriteConfirmed(id) => Holds(s, id) && LeaseOf(s, id).operation.Writing?
        && s.clients[id].put < |s.puts| && s.puts[s.clients[id].put].status == Applied
    case WriteFailed(id) => Holds(s, id) && LeaseOf(s, id).operation.Writing?
    case ReleaseSettled(id) => Holds(s, id) && LeaseOf(s, id).operation.Releasing?
    case Abort(id) => Holds(s, id)
    case Promote(id) => Holds(s, id)
    case CallRelease(id) => Holds(s, id)
  }

  function WithClient<S>(s: Sys<S>, id: nat, client: Client<S>): Sys<S> {
    s.(clients := s.clients[id := client])
  }

  function WithLease<S>(s: Sys<S>, id: nat, lease: Local<S>): Sys<S>
    requires Holds(s, id)
  {
    WithClient(s, id, s.clients[id].(lease := lease))
  }

  function KindOf<S>(operation: Operation<S>): Kind
    requires !operation.Idle?
  {
    if operation.Releasing? then Release
    else if operation.request.Publish? then Publication else Renewal
  }

  /** Sends the conditional write of the request that just started. */
  function Sent<S>(s: Sys<S>, id: nat, lease: Local<S>): Sys<S>
    requires Holds(s, id)
  {
    if lease.operation.Idle? then WithLease(s, id, lease)
    else
      var order := Order(lease);
      var put := Put(id, KindOf(lease.operation), Some(order.guard), order.next, Pending);
      WithClient(s, id, Holding(lease, |s.puts|)).(puts := s.puts + [put])
  }

  /** The store compares and swaps in one step. */
  function Delivered<S(==)>(s: Sys<S>, k: nat): Sys<S>
    requires k < |s.puts|
  {
    var put := s.puts[k];
    if s.store == put.guard then
      s.(store := put.next, puts := s.puts[k := put.(status := Applied)], log := s.log + [put])
    else s.(puts := s.puts[k := put.(status := Rejected)])
  }

  function Apply<S(==)>(s: Sys<S>, step: Step<S>): Sys<S>
    requires Enabled(s, step)
  {
    match step
    case Tick(now) => s.(now := now)
    case Begin(id, ttl, deadline) => WithClient(s, id, Trying(ttl, deadline))
    case Fetch(id) => WithClient(s, id, Fetched(s.clients[id].ttl, s.clients[id].deadline, s.store))
    case Contend(id) => WithClient(s, id, Trying(s.clients[id].ttl, s.clients[id].deadline))
    case SendAcquire(id) =>
      var c := s.clients[id];
      var next := Taken(s, id, c.ttl, c.deadline, c.seen);
      WithClient(s, id, Acquiring(c.ttl, c.deadline, |s.puts|))
        .(puts := s.puts + [Put(id, Acquire, c.seen, Some(next), Pending)])
    case AcquireConfirmed(id) =>
      var c := s.clients[id];
      if s.puts[c.put].next.Some? then
        WithClient(s, id, Holding(Acquired(s.puts[c.put].next.value, c.ttl, c.deadline), c.put))
      else s
    case AcquireRejected(id) => WithClient(s, id, Trying(s.clients[id].ttl, s.clients[id].deadline))
    case Stop(id) => WithClient(s, id, Gone)
    case Deliver(put) => Delivered(s, put)
    case Enqueue(id, request) => WithLease(s, id, Enqueued(LeaseOf(s, id), request))
    case StartNext(id) => Sent(s, id, Started(LeaseOf(s, id), s.now))
    case WriteConfirmed(id) => WithLease(s, id, Confirmed(LeaseOf(s, id), s.now))
    case WriteFailed(id) => WithLease(s, id, Failed(LeaseOf(s, id)))
    case ReleaseSettled(id) => WithLease(s, id, Settled(LeaseOf(s, id)))
    case Abort(id) => WithLease(s, id, LeaseOf(s, id).(aborted := true))
    case Promote(id) => WithLease(s, id, Promoted(LeaseOf(s, id), s.now))
    case CallRelease(id) => WithLease(s, id, Released(LeaseOf(s, id)))
  }

  // ------------------------------------------------------------------ Invariant

  function Gen<S>(doc: Option<Doc<S>>): nat {
    if doc.Some? then doc.value.generation else 0
  }

  function StateOf<S>(doc: Option<Doc<S>>): Option<S> {
    if doc.Some? then doc.value.state else None
  }

  /** What every conditional write guarantees by construction, whoever sent it. */
  predicate PutShape<S(==)>(durable: bool, put: Put<S>) {
    match put.kind
    case Acquire =>
      && put.next.Some? && put.next.value.holder == put.owner && put.next.value.durable == durable
      && Gen(put.next) == Gen(put.guard) + 1 && StateOf(put.next) == StateOf(put.guard)
    case Release =>
      && put.guard.Some? && put.guard.value.holder == put.owner && put.guard.value.durable == durable
      && put.next == if durable then Some(put.guard.value.(expiresAt := 0)) else None
    case _ =>
      && put.guard.Some? && put.next.Some? && put.guard.value.durable == durable
      && put.guard.value.holder == put.owner
      && put.next.value == put.guard.value.(expiresAt := put.next.value.expiresAt, state := put.next.value.state)
      && put.guard.value.expiresAt <= put.next.value.expiresAt
      && (put.kind == Renewal ==> put.next.value.state == put.guard.value.state)
  }

  predicate PutInv<S(==)>(durable: bool, now: int, ids: set<nat>, put: Put<S>) {
    && PutShape(durable, put)
    && put.owner in ids
    && (put.kind == Acquire && put.guard.Some? ==> put.guard.value.expiresAt <= now)
  }

  predicate PutsInv<S(==)>(durable: bool, now: int, ids: set<nat>, puts: seq<Put<S>>) {
    forall k | 0 <= k < |puts| :: PutInv(durable, now, ids, puts[k])
  }

  predicate LeaseInv<S(==)>(durable: bool, now: int, puts: seq<Put<S>>, id: nat, l: Local<S>, put: nat) {
    && l.document.holder == id
    && l.document.durable == durable
    && l.etag == l.document
    && l.document.expiresAt <= Cap(now + l.ttl, l.deadline)
    && (l.operation.Writing? ==>
      && !l.operation.request.Relinquish?
      && put < |puts| && puts[put].owner == id
      && puts[put].guard == Some(l.document) && puts[put].next == Some(l.operation.next)
      && l.document.expiresAt <= l.operation.next.expiresAt <= Cap(now + l.ttl, l.deadline)
      && l.operation.next
         == l.document.(expiresAt := l.operation.next.expiresAt, state := Payload(l, l.operation.request)))
    && ((Relinquish in l.queue || l.operation.Releasing?) ==> l.released)
    && (l.released ==> l.aborted)
  }

  predicate ClientInv<S(==)>(durable: bool, now: int, puts: seq<Put<S>>, id: nat, c: Client<S>) {
    match c
    case Acquiring(ttl, deadline, put) =>
      && put < |puts| && puts[put].owner == id && puts[put].kind == Acquire
      && puts[put].next.Some? && puts[put].next.value.holder == id && puts[put].next.value.durable == durable
      && puts[put].next.value.expiresAt <= Cap(now + ttl, deadline)
    case Holding(l, put) => LeaseInv(durable, now, puts, id, l, put)
    case _ => true
  }

  /** Only the write a client is waiting for may still take effect, unless the client gave up. */
  predicate Outstanding<S>(c: Client<S>, k: nat) {
    match c
    case Acquiring(_, _, put) => k == put
    case Holding(l, put) => l.aborted || (l.operation.Writing? && k == put)
    case Gone => true
    case _ => false
  }

  predicate PendingInv<S>(puts: seq<Put<S>>, id: nat, c: Client<S>) {
    forall k | 0 <= k < |puts| && puts[k].status == Pending && puts[k].owner == id :: Outstanding(c, k)
  }

  /** The document the client has reason to believe is stored, while it may rely on it. */
  function Claim<S>(now: int, puts: seq<Put<S>>, c: Client<S>): Option<Doc<S>> {
    match c
    case Acquiring(_, _, put) =>
      if put < |puts| && puts[put].status == Applied && puts[put].next.Some? && now < puts[put].next.value.expiresAt
      then puts[put].next else None
    case Holding(l, put) =>
      if l.aborted || l.document.expiresAt <= now then None
      else if l.operation.Writing? && put < |puts| && puts[put].status == Applied then Some(l.operation.next)
      else Some(l.document)
    case _ => None
  }

  /** Everything known about one client. */
  predicate Known<S(==)>(durable: bool, now: int, store: Option<Doc<S>>, puts: seq<Put<S>>, id: nat, c: Client<S>) {
    && ClientInv(durable, now, puts, id, c)
    && PendingInv(puts, id, c)
    && (Claim(now, puts, c).Some? ==> store == Claim(now, puts, c))
  }

  predicate ClientsInv<S(==)>(durable: bool, now: int, store: Option<Doc<S>>, puts: seq<Put<S>>,
                              clients: map<nat, Client<S>>) {
    forall id | id in clients :: Known(durable, now, store, puts, id, clients[id])
  }

  /** The document stored when the first `k` writes of the log had taken effect. */
  function After<S>(origin: Option<Doc<S>>, log: seq<Put<S>>, k: nat): Option<Doc<S>>
    requires k <= |log|
  {
    if k == 0 then origin else log[k - 1].next
  }

  predicate Entry<S(==)>(durable: bool, ids: set<nat>, origin: Option<Doc<S>>, log: seq<Put<S>>, k: nat)
    requires k < |log|
  {
    log[k].guard == After(origin, log, k) && PutShape(durable, log[k]) && log[k].owner in ids
  }

  /** Each entry of the log found what the one before it wrote. */
  predicate LogInv<S(==)>(durable: bool, ids: set<nat>, origin: Option<Doc<S>>, log: seq<Put<S>>) {
    forall k | 0 <= k < |log| :: Entry(durable, ids, origin, log, k)
  }

  predicate Inv<S(==)>(s: Sys<S>) {
    && PutsInv(s.durable, s.now, s.clients.Keys, s.puts)
    && ClientsInv(s.durable, s.now, s.store, s.puts, s.clients)
    && LogInv(s.durable, s.clients.Keys, s.origin, s.log)
    && s.store == After(s.origin, s.log, |s.log|)
    && (s.origin.Some? ==> s.origin.value.holder !in s.clients)
  }

  lemma InitInv<S>(s: Sys<S>)
    requires Init(s)
    ensures Inv(s)
  {
  }

  /** Time passing or a client arriving weakens what is known of the others. */
  lemma KnownLater<S>(s: Sys<S>, now: int, i: nat)
    requires Inv(s) && i in s.clients && s.now <= now
    ensures Known(s.durable, now, s.store, s.puts, i, s.clients[i])
  {
    assert Known(s.durable, s.now, s.store, s.puts, i, s.clients[i]);
  }

  /** A step that replaces one client's memory and nothing else. */
  lemma LocalStepInv<S>(s: Sys<S>, id: nat, c: Client<S>)
    requires Inv(s)
    requires s.origin.Some? ==> s.origin.value.holder != id
    requires Known(s.durable, s.now, s.store, s.puts, id, c)
    ensures Inv(WithClient(s, id, c))
  {
    var ids := s.clients.Keys + {id};
    assert WithClient(s, id, c).clients.Keys == ids;
    LogMoreClients(s.durable, s.clients.Keys, ids, s.origin, s.log);
    assert PutsInv(s.durable, s.now, ids, s.puts) by {
      forall k | 0 <= k < |s.puts| ensures PutInv(s.durable, s.now, ids, s.puts[k]) {
        assert PutInv(s.durable, s.now, s.clients.Keys, s.puts[k]);
      }
    }
  }

  lemma TickInv<S>(s: Sys<S>, now: int)
    requires Inv(s) && s.now <= now
    ensures Inv(s.(now := now))
  {
    forall i | i in s.clients ensures Known(s.durable, now, s.store, s.puts, i, s.clients[i]) {
      KnownLater(s, now, i);
    }
    forall k | 0 <= k < |s.puts| ensures PutInv(s.durable, now, s.clients.Keys, s.puts[k]) {
      assert PutInv(s.durable, s.now, s.clients.Keys, s.puts[k]);
    }
  }

  /** A step that sends one more conditional write. */
  lemma SendInv<S>(s: Sys<S>, id: nat, c: Client<S>, put: Put<S>)
    requires Inv(s) && id in s.clients
    requires put.owner == id && put.status == Pending && PutInv(s.durable, s.now, s.clients.Keys, put)
    requires Known(s.durable, s.now, s.store, s.puts + [put], id, c)
    ensures Inv(WithClient(s, id, c).(puts := s.puts + [put]))
  {
    var puts := s.puts + [put];
    assert WithClient(s, id, c).clients.Keys == s.clients.Keys;
    forall k | 0 <= k < |puts| ensures PutInv(s.durable, s.now, s.clients.Keys, puts[k]) {
      assert k < |s.puts| ==> PutInv(s.durable, s.now, s.clients.Keys, s.puts[k]);
    }
    forall i | i in s.clients && i != id ensures Known(s.durable, s.now, s.store, puts, i, s.clients[i]) {
      assert Known(s.durable, s.now, s.store, s.puts, i, s.clients[i]);
      assert forall k | 0 <= k < |s.puts| :: puts[k] == s.puts[k];
    }
  }

  /** A write that takes effect while a client claims the stored document is that client's own
      write in progress: a rival's takeover would need an expired document. */
  lemma ClaimBlocksRivals<S>(s: Sys<S>, k: nat, id: nat)
    requires Inv(s) && k < |s.puts| && s.puts[k].status == Pending && s.store == s.puts[k].guard
    requires id in s.clients && Claim(s.now, s.puts, s.clients[id]).Some?
    ensures s.puts[k].owner == id
    ensures Holds(s, id) && LeaseOf(s, id).operation.Writing? && s.clients[id].put == k
  {
    var put := s.puts[k];
    assert Known(s.durable, s.now, s.store, s.puts, id, s.clients[id]);
    assert PutInv(s.durable, s.now, s.clients.Keys, put);
    assert s.now < s.store.value.expiresAt && s.store.value.holder == id;
  }

  /** Seen by one client, a write that takes effect is its own or meets no claim. */
  lemma KnownAfter<S>(s: Sys<S>, k: nat, i: nat)
    requires k < |s.puts| && s.puts[k].status == Pending && i in s.clients
    requires Known(s.durable, s.now, s.store, s.puts, i, s.clients[i])
    requires s.store == s.puts[k].guard && Claim(s.now, s.puts, s.clients[i]).Some? ==>
               s.puts[k].owner == i && Holds(s, i) && LeaseOf(s, i).operation.Writing? && s.clients[i].put == k
    ensures var s' := Delivered(s, k); Known(s'.durable, s'.now, s'.store, s'.puts, i, s.clients[i])
  {
  }

  lemma DeliverKnown<S>(s: Sys<S>, k: nat, i: nat)
    requires Inv(s) && k < |s.puts| && s.puts[k].status == Pending && i in s.clients
    ensures var s' := Delivered(s, k); Known(s'.durable, s'.now, s'.store, s'.puts, i, s.clients[i])
  {
    assert Known(s.durable, s.now, s.store, s.puts, i, s.clients[i]);
    if s.store == s.puts[k].guard && Claim(s.now, s.puts, s.clients[i]).Some? {
      ClaimBlocksRivals(s, k, i);
    }
    KnownAfter(s, k, i);
  }

  lemma LogGrows<S>(durable: bool, ids: set<nat>, origin: Option<Doc<S>>, log: seq<Put<S>>, put: Put<S>)
    requires LogInv(durable, ids, origin, log)
    requires put.guard == After(origin, log, |log|) && PutShape(durable, put) && put.owner in ids
    ensures LogInv(durable, ids, origin, log + [put])
  {
    forall j | 0 <= j < |log + [put]| ensures Entry(durable, ids, origin, log + [put], j) {
      assert j < |log| ==> Entry(durable, ids, origin, log, j);
    }
  }

  lemma LogPrefix<S>(durable: bool, ids: set<nat>, origin: Option<Doc<S>>, log: seq<Put<S>>, k: nat)
    requires LogInv(durable, ids, origin, log) && k <= |log|
    ensures LogInv(durable, ids, origin, log[..k])
    ensures After(origin, log[..k], k) == After(origin, log, k)
  {
    forall j | 0 <= j < k ensures Entry(durable, ids, origin, log[..k], j) {
      assert Entry(durable, ids, origin, log, j);
    }
  }

  lemma LogMoreClients<S>(durable: bool, ids: set<nat>, more: set<nat>, origin: Option<Doc<S>>, log: seq<Put<S>>)
    requires LogInv(durable, ids, origin, log) && ids <= more
    ensures LogInv(durable, more, origin, log)
  {
    forall j | 0 <= j < |log| ensures Entry(durable, more, origin, log, j) {
      assert Entry(durable, ids, origin, log, j);
    }
  }

  lemma DeliverPuts<S>(s: Sys<S>, k: nat, status: Status)
    requires Inv(s) && k < |s.puts|
    ensures PutsInv(s.durable, s.now, s.clients.Keys, s.puts[k := s.puts[k].(status := status)])
  {
    assert PutInv(s.durable, s.now, s.clients.Keys, s.puts[k]);
  }

  lemma DeliverInv<S>(s: Sys<S>, k: nat)
    requires Inv(s) && k < |s.puts| && s.puts[k].status == Pending
    ensures Inv(Delivered(s, k))
  {
    var s' := Delivered(s, k);
    forall i | i in s.clients ensures Known(s'.durable, s'.now, s'.store, s'.puts, i, s.clients[i]) {
      DeliverKnown(s, k, i);
    }
    if s.store == s.puts[k].guard {
      DeliverPuts(s, k, Applied);
      assert PutInv(s.durable, s.now, s.clients.Keys, s.puts[k]);
      LogGrows(s.durable, s.clients.Keys, s.origin, s.log, s.puts[k]);
    } else {
      DeliverPuts(s, k, Rejected);
    }
  }

  lemma SendAcquireInv<S>(s: Sys<S>, id: nat)
    requires Inv(s) && Enabled(s, SendAcquire(id))
    ensures Inv(Apply(s, SendAcquire(id)))
  {
    var s' := Apply(s, SendAcquire(id));
    assert Known(s.durable, s.now, s.store, s.puts, id, s.clients[id]);
    SendInv(s, id, s'.clients[id], s'.puts[|s.puts|]);
  }

  /** The write a request sends obeys the shape of its kind, and its sender waits for it. */
  lemma StartedPut<S>(s: Sys<S>, id: nat)
    requires Inv(s) && Enabled(s, StartNext(id))
    requires !Started(LeaseOf(s, id), s.now).operation.Idle?
    ensures var s' := Apply(s, StartNext(id));
            var put := s'.puts[|s.puts|];
            PutInv(s.durable, s.now, s.clients.Keys, put) && put.owner == id && put.status == Pending
    ensures var s' := Apply(s, StartNext(id));
            Known(s.durable, s.now, s.store, s'.puts, id, s'.clients[id])
  {
    assert Known(s.durable, s.now, s.store, s.puts, id, s.clients[id]);
    var l, next := LeaseOf(s, id), Started(LeaseOf(s, id), s.now);
    assert forall r | r in l.queue[1..] :: r in l.queue;
    assert l.queue[0] in l.queue;
  }

  lemma StartNextInv<S>(s: Sys<S>, id: nat)
    requires Inv(s) && Enabled(s, StartNext(id))
    ensures Inv(Apply(s, StartNext(id)))
  {
    var s' := Apply(s, StartNext(id));
    if Started(LeaseOf(s, id), s.now).operation.Idle? {
      assert Known(s.durable, s.now, s.store, s.puts, id, s.clients[id]);
      assert forall r | r in LeaseOf(s, id).queue[1..] :: r in LeaseOf(s, id).queue;
      LocalStepInv(s, id, s'.clients[id]);
    } else {
      StartedPut(s, id);
      SendInv(s, id, s'.clients[id], s'.puts[|s.puts|]);
      assert s' == WithClient(s, id, s'.clients[id]).(puts := s.puts + [s'.puts[|s.puts|]]);
    }
  }

  /** A response to the write in progress, or its loss, keeps what is known of its lease. */
  lemma WriteEndKnown<S>(s: Sys<S>, id: nat)
    requires Inv(s) && Holds(s, id) && LeaseOf(s, id).operation.Writing?
    ensures Known(s.durable, s.now, s.store, s.puts, id, s.clients[id].(lease := Failed(LeaseOf(s, id))))
    ensures s.clients[id].put < |s.puts| && s.puts[s.clients[id].put].status == Applied ==>
              Known(s.durable, s.now, s.store, s.puts, id, s.clients[id].(lease := Confirmed(LeaseOf(s, id), s.now)))
  {
    assert Known(s.durable, s.now, s.store, s.puts, id, s.clients[id]);
  }

  lemma AcquisitionEndKnown<S>(s: Sys<S>, id: nat)
    requires Inv(s) && id in s.clients && s.clients[id].Acquiring? && s.clients[id].put < |s.puts|
    requires s.puts[s.clients[id].put].status != Pending
    ensures var c := s.clients[id];
            && s.puts[c.put].next.Some?
            && (s.puts[c.put].status == Applied ==> Known(s.durable, s.now, s.store, s.puts, id,
                  Holding(Acquired(s.puts[c.put].next.value, c.ttl, c.deadline), c.put)))
            && Known(s.durable, s.now, s.store, s.puts, id, Trying(c.ttl, c.deadline))
  {
    assert Known(s.durable, s.now, s.store, s.puts, id, s.clients[id]);
  }

  /** Calls and timers touch neither the document nor a write in progress. */
  lemma QuietInv<S>(s: Sys<S>, id: nat, l': Local<S>)
    requires Inv(s) && Holds(s, id)
    requires l'.ttl == LeaseOf(s, id).ttl && l'.document == LeaseOf(s, id).document && l'.etag == LeaseOf(s, id).etag
    requires l'.deadline == LeaseOf(s, id).deadline || l'.deadline == None
    requires l'.operation == LeaseOf(s, id).operation || (l'.operation.Idle? && LeaseOf(s, id).operation.Releasing?)
    requires LeaseOf(s, id).aborted ==> l'.aborted
    requires l'.released ==> l'.aborted
    requires (Relinquish in l'.queue || l'.operation.Releasing?) ==> l'.released
    ensures Inv(WithLease(s, id, l'))
  {
    assert Known(s.durable, s.now, s.store, s.puts, id, s.clients[id]);
    LocalStepInv(s, id, s.clients[id].(lease := l'));
  }

  /** Steps that reach a held lease without going through the network. */
  lemma CallInv<S>(s: Sys<S>, step: Step<S>)
    requires Inv(s) && Enabled(s, step)
    requires step.Enqueue? || step.ReleaseSettled? || step.Abort? || step.Promote? || step.CallRelease?
    ensures Inv(Apply(s, step))
  {
    assert Known(s.durable, s.now, s.store, s.puts, step.id, s.clients[step.id]);
    QuietInv(s, step.id, Apply(s, step).clients[step.id].lease);
  }

  /** Steps that end a wait for a response. */
  lemma ResponseInv<S>(s: Sys<S>, step: Step<S>)
    requires Inv(s) && Enabled(s, step)
    requires step.AcquireConfirmed? || step.AcquireRejected? || step.WriteConfirmed? || step.WriteFailed?
    ensures Inv(Apply(s, step))
  {
    var c := Apply(s, step).clients[step.id];
    if step.AcquireConfirmed? || step.AcquireRejected? {
      AcquisitionEndKnown(s, step.id);
    } else {
      WriteEndKnown(s, step.id);
    }
    LocalStepInv(s, step.id, c);
  }

  /** Steps before a lease is held, and the end of a client. */
  lemma ApproachInv<S>(s: Sys<S>, step: Step<S>)
    requires Inv(s) && Enabled(s, step)
    requires step.Begin? || step.Fetch? || step.Contend? || step.Stop?
    ensures Inv(Apply(s, step))
  {
    if step.Begin? {
      assert forall k | 0 <= k < |s.puts| :: PutInv(s.durable, s.now, s.clients.Keys, s.puts[k]);
    } else {
      assert Known(s.durable, s.now, s.store, s.puts, step.id, s.clients[step.id]);
    }
    LocalStepInv(s, step.id, Apply(s, step).clients[step.id]);
  }

  lemma StepInv<S>(s: Sys<S>, step: Step<S>)
    requires Inv(s) && Enabled(s, step)
    ensures Inv(Apply(s, step))
  {
    match step
    case Tick(now) => TickInv(s, now);
    case Deliver(put) => DeliverInv(s, put);
    case SendAcquire(id) => SendAcquireInv(s, id);
    case StartNext(id) => StartNextInv(s, id);
    case Begin(_, _, _) => ApproachInv(s, step);
    case Fetch(_) => ApproachInv(s, step);
    case Contend(_) => ApproachInv(s, step);
    case Stop(_) => ApproachInv(s, step);
    case AcquireConfirmed(_) => ResponseInv(s, step);
    case AcquireRejected(_) => ResponseInv(s, step);
    case WriteConfirmed(_) => ResponseInv(s, step);
    case WriteFailed(_) => ResponseInv(s, step);
    case _ => CallInv(s, step);
  }

  // ------------------------------------------------------------------ Runs

  predicate Runs<S(==)>(s: Sys<S>, steps: seq<Step<S>>)
    decreases |steps|
  {
    steps == [] || (Enabled(s, steps[0]) && Runs(Apply(s, steps[0]), steps[1..]))
  }

  function End<S(==)>(s: Sys<S>, steps: seq<Step<S>>): Sys<S>
    requires Runs(s, steps)
    decreases |steps|
  {
    if steps == [] then s else End(Apply(s, steps[0]), steps[1..])
  }

  lemma StepLog<S>(s: Sys<S>, step: Step<S>)
    requires Enabled(s, step)
    ensures Apply(s, step).durable == s.durable && Apply(s, step).origin == s.origin
    ensures s.log <= Apply(s, step).log
  {
  }

  lemma {:induction false} RunInv<S>(s: Sys<S>, steps: seq<Step<S>>)
    requires Inv(s) && Runs(s, steps)
    ensures Inv(End(s, steps)) && End(s, steps).durable == s.durable && s.log <= End(s, steps).log
    ensures End(s, steps).origin == s.origin
    decreases |steps|
  {
    if steps != [] {
      StepInv(s, steps[0]);
      StepLog(s, steps[0]);
      RunInv(Apply(s, steps[0]), steps[1..]);
    }
  }

  // ------------------------------------------------------------------ Mutual exclusion

  /** A lease that passes its check is the stored holder, up to its own write in progress. */
  lemma PassingLeaseIsStored<S>(s: Sys<S>, id: nat)
    requires Inv(s) && Holds(s, id) && Passes(LeaseOf(s, id), s.now)
    ensures s.store.Some? && s.store.value.holder == id
    ensures s.store.value == LeaseOf(s, id).document
            || (LeaseOf(s, id).operation.Writing? && s.store.value == LeaseOf(s, id).operation.next)
    ensures Gen(s.store) == LeaseOf(s, id).document.generation
  {
    assert Known(s.durable, s.now, s.store, s.puts, id, s.clients[id]);
    if LeaseOf(s, id).operation.Writing? {
      assert PutInv(s.durable, s.now, s.clients.Keys, s.puts[s.clients[id].put]);
    }
  }

  /** At every instant of every run at most one lease on the key passes its check. */
  lemma MutualExclusion<S>(s: Sys<S>, steps: seq<Step<S>>, a: nat, b: nat)
    requires Init(s) && Runs(s, steps)
    requires Holds(End(s, steps), a) && Passes(LeaseOf(End(s, steps), a), End(s, steps).now)
    requires Holds(End(s, steps), b) && Passes(LeaseOf(End(s, steps), b), End(s, steps).now)
    ensures a == b
  {
    RunInv(s, steps);
    PassingLeaseIsStored(End(s, steps), a);
    PassingLeaseIsStored(End(s, steps), b);
  }

  /** Until it is promoted, a lease never stores an expiry past its launch deadline. */
  lemma UnpromotedExpiryIsCapped<S>(s: Sys<S>, steps: seq<Step<S>>, id: nat)
    requires Init(s) && Runs(s, steps)
    requires Holds(End(s, steps), id) && Passes(LeaseOf(End(s, steps), id), End(s, steps).now)
    requires LeaseOf(End(s, steps), id).deadline.Some?
    ensures End(s, steps).store.Some?
    ensures End(s, steps).store.value.expiresAt <= LeaseOf(End(s, steps), id).deadline.value
  {
    RunInv(s, steps);
    var e := End(s, steps);
    PassingLeaseIsStored(e, id);
    assert Known(e.durable, e.now, e.store, e.puts, id, e.clients[id]);
  }

  // ------------------------------------------------------------------ Fencing

  /** With a durable key no write removes the document, and only a takeover advances it. */
  lemma DurableNext<S>(put: Put<S>)
    requires PutShape(true, put)
    ensures put.next.Some? && put.next.value.holder == put.owner
    ensures Gen(put.next) == Gen(put.guard) + (if put.kind == Acquire then 1 else 0)
    ensures put.kind != Acquire ==> put.guard.Some? && put.guard.value.holder == put.owner
  {
  }

  /** The order of effect is the order of generations, and each takeover opens a new one. */
  lemma {:induction false} GenerationsAdvance<S>(ids: set<nat>, origin: Option<Doc<S>>, log: seq<Put<S>>, a: nat,
                                                 b: nat)
    requires LogInv(true, ids, origin, log) && a <= b <= |log|
    ensures Gen(After(origin, log, a)) <= Gen(After(origin, log, b))
    ensures a < b && log[b - 1].kind == Acquire ==> Gen(After(origin, log, a)) < Gen(After(origin, log, b))
    decreases b
  {
    if a < b {
      GenerationsAdvance(ids, origin, log, a, b - 1);
      assert Entry(true, ids, origin, log, b - 1);
      DurableNext(log[b - 1]);
    }
  }

  /** A generation belongs to the one client that opened it. */
  lemma {:induction false} GenerationHasOneOwner<S>(ids: set<nat>, origin: Option<Doc<S>>, log: seq<Put<S>>, a: nat,
                                                    b: nat)
    requires LogInv(true, ids, origin, log) && a <= b < |log|
    requires Gen(log[a].next) == Gen(log[b].next)
    ensures log[a].owner == log[b].owner
    decreases b
  {
    if a < b {
      GenerationsAdvance(ids, origin, log, a + 1, b + 1);
      GenerationsAdvance(ids, origin, log, a + 1, b);
      assert Entry(true, ids, origin, log, b) && Entry(true, ids, origin, log, b - 1);
      DurableNext(log[b]);
      DurableNext(log[b - 1]);
      GenerationHasOneOwner(ids, origin, log, a, b - 1);
    }
  }

  /** Once a later generation is stored, no write issued under an earlier one takes effect,
      however long it was delayed and although an ETag says nothing but the content. */
  lemma Fencing<S>(s: Sys<S>, steps: seq<Step<S>>, later: seq<Step<S>>, k: nat)
    requires Init(s) && s.durable && Runs(s, steps) && Runs(End(s, steps), later)
    requires |End(s, steps).log| <= k < |End(End(s, steps), later).log|
    ensures var put := End(End(s, steps), later).log[k];
            && Gen(End(s, steps).store) <= Gen(put.next)
            && (put.kind == Acquire ==> Gen(End(s, steps).store) < Gen(put.next))
  {
    RunInv(s, steps);
    var e := End(s, steps);
    RunInv(e, later);
    var f := End(e, later);
    assert After(f.origin, f.log, |e.log|) == e.store;
    GenerationsAdvance(f.clients.Keys, f.origin, f.log, |e.log|, k + 1);
  }

  /** The same for a single write that is still in flight. */
  lemma StaleWriteIsRejected<S>(s: Sys<S>, k: nat)
    requires Inv(s) && s.durable && Enabled(s, Deliver(k))
    requires Gen(s.puts[k].next) < Gen(s.store) || (s.puts[k].kind == Acquire && Gen(s.puts[k].next) == Gen(s.store))
    ensures Apply(s, Deliver(k)).store == s.store && Apply(s, Deliver(k)).log == s.log
    ensures Apply(s, Deliver(k)).puts[k].status == Rejected
  {
    assert PutInv(s.durable, s.now, s.clients.Keys, s.puts[k]);
    DurableNext(s.puts[k]);
  }

  // ------------------------------------------------------------------ One atomic register

  /** The payload of the last publication among the writes that took effect. */
  function Register<S>(initial: Option<S>, log: seq<Put<S>>): Option<S> {
    if log == [] then initial
    else if log[|log| - 1].kind == Publication then StateOf(log[|log| - 1].next)
    else Register(initial, log[..|log| - 1])
  }

  /** The document is an atomic register: renewals, ownership checks, releases and takeovers never
      bring an older state back. */
  lemma {:induction false} DocumentIsRegister<S>(ids: set<nat>, origin: Option<Doc<S>>, log: seq<Put<S>>)
    requires LogInv(true, ids, origin, log)
    ensures StateOf(After(origin, log, |log|)) == Register(StateOf(origin), log)
    decreases |log|
  {
    if log != [] {
      var n := |log| - 1;
      LogPrefix(true, ids, origin, log, n);
      DocumentIsRegister(ids, origin, log[..n]);
      assert Entry(true, ids, origin, log, n);
    }
  }

  /** A new holder starts from the last published state, and a holder that passes its check with
      no write in progress reads it. */
  lemma HoldersReadTheRegister<S>(s: Sys<S>, steps: seq<Step<S>>, id: nat)
    requires Init(s) && s.durable && Runs(s, steps)
    ensures var e := End(s, steps); StateOf(e.store) == Register(StateOf(e.origin), e.log)
    ensures var e := End(s, steps);
            Holds(e, id) && Passes(LeaseOf(e, id), e.now) && !LeaseOf(e, id).operation.Writing? ==>
              LeaseOf(e, id).document.state == Register(StateOf(e.origin), e.log)
    ensures var e := End(s, steps);
            forall k | 0 <= k < |e.log| && e.log[k].kind == Acquire ::
              StateOf(e.log[k].next) == Register(StateOf(e.origin), e.log[..k])
  {
    RunInv(s, steps);
    var e := End(s, steps);
    DocumentIsRegister(e.clients.Keys, e.origin, e.log);
    if Holds(e, id) && Passes(LeaseOf(e, id), e.now) {
      PassingLeaseIsStored(e, id);
    }
    forall k | 0 <= k < |e.log| && e.log[k].kind == Acquire
      ensures StateOf(e.log[k].next) == Register(StateOf(e.origin), e.log[..k])
    {
      LogPrefix(true, e.clients.Keys, e.origin, e.log, k);
      DocumentIsRegister(e.clients.Keys, e.origin, e.log[..k]);
      assert Entry(true, e.clients.Keys, e.origin, e.log, k);
    }
  }
}

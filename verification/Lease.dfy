/**
 The lease one runtime holds on a session: what it remembers locally and how its queued
 operations, their responses, promotion and release change that memory.

 An ETag is modelled by the stored document itself, the weakest reading of "ETag": two equal
 documents share one. `Deadline` is `None` where the source has Infinity.
 */
module Lease {
  import opened Common

  type Deadline = Option<int>

  predicate Before(now: int, deadline: Deadline) {
    deadline.None? || now < deadline.value
  }

  function Cap(at: int, deadline: Deadline): int {
    if deadline.None? then at else Min(at, deadline.value)
  }

  /** The stored JSON document; `durable` distinguishes format version 2 from 1. */
  datatype Doc<S> = Doc(expiresAt: int, holder: nat, generation: nat, state: Option<S>, durable: bool)

  /** A request waiting in the lease's operation queue. A renewal carries no state: it copies
      whatever state the document has when it starts. */
  datatype Request<S> = Renew | Publish(state: S) | Relinquish

  datatype Operation<S> = Idle | Writing(request: Request<S>, next: Doc<S>) | Releasing

  /** Everything the lease object remembers between two turns of its event loop. */
  datatype Local<S> = Local(
    ttl: nat, deadline: Deadline, document: Doc<S>, etag: Doc<S>,
    aborted: bool, released: bool, queue: seq<Request<S>>, operation: Operation<S>)

  /** What a conditional write of the lease asks the store to do. */
  datatype WriteOrder<S> = WriteOrder(guard: Doc<S>, next: Option<Doc<S>>)

  predicate Passes<S>(l: Local<S>, now: int) {
    Before(now, l.deadline) && !l.aborted && !l.released && now < l.document.expiresAt
  }

  /** Every failing ownership check leaves the lease aborted. */
  function Checked<S>(l: Local<S>, now: int): Local<S> {
    if Passes(l, now) then l else l.(aborted := true)
  }

  function Acquired<S>(document: Doc<S>, ttl: nat, deadline: Deadline): Local<S> {
    Local(ttl, deadline, document, document, false, false, [], Idle)
  }

  function Renewed<S>(l: Local<S>, now: int, state: Option<S>): Doc<S> {
    l.document.(expiresAt := Cap(now + l.ttl, l.deadline), state := state)
  }

  function Enqueued<S>(l: Local<S>, request: Request<S>): Local<S> {
    l.(queue := l.queue + [request])
  }

  /** The state a request will publish, decided when it starts and not when it was queued. */
  function Payload<S>(l: Local<S>, request: Request<S>): Option<S> {
    if request.Publish? then Some(request.state) else l.document.state
  }

  /** Starts the request at the head of the queue. */
  function Started<S>(l: Local<S>, now: int): Local<S>
    requires l.operation.Idle? && l.queue != []
  {
    var request := l.queue[0];
    var rest := l.(queue := l.queue[1..]);
    if request.Relinquish? then rest.(operation := Releasing)
    else if Passes(l, now) then
      rest.(operation := Writing(request, Renewed(l, now, Payload(l, request))))
    else rest.(aborted := true)
  }

  /** The conditional write that the request in progress sends. */
  function Order<S>(l: Local<S>): WriteOrder<S>
    requires !l.operation.Idle?
  {
    if l.operation.Writing? then WriteOrder(l.etag, Some(l.operation.next))
    else WriteOrder(l.etag, if l.document.durable then Some(l.document.(expiresAt := 0)) else None)
  }

  /** The store confirmed the write in progress. Authority is not revived when the previous
      expiry, the deadline or a release overtook the response. */
  function Confirmed<S>(l: Local<S>, now: int): Local<S>
    requires l.operation.Writing?
  {
    var next := l.operation.next;
    var updated := l.(document := next, etag := next, operation := Idle);
    if now < l.document.expiresAt then Checked(updated, now) else updated.(aborted := true)
  }

  /** The write in progress failed, or its outcome is unknown. */
  function Failed<S>(l: Local<S>): Local<S> {
    l.(aborted := true, operation := Idle)
  }

  function Promoted<S>(l: Local<S>, now: int): Local<S> {
    if Passes(l, now) then l.(deadline := None) else l.(aborted := true)
  }

  /** Releasing twice queues one conditional write only. */
  function Released<S>(l: Local<S>): Local<S> {
    if l.released then l
    else l.(aborted := true, released := true, queue := l.queue + [Relinquish])
  }

  function Settled<S>(l: Local<S>): Local<S> {
    l.(operation := Idle)
  }
}

/** The lease object itself: mutable fields changed turn by turn, refining `Lease.Local`. */
module LeaseHandle {
  import opened Common
  import opened Lease

  class Handle<S(==)> {
    const ttl: nat
    var deadlineAt: Deadline
    var document: Doc<S>
    var etag: Doc<S>
    var aborted: bool
    var released: bool
    var operations: seq<Request<S>>
    var current: Operation<S>
    /** The renewal that `Promote` schedules is still to come. */
    var promotionTimer: bool

    /** A released lease is aborted, and an aborted one has no timer. */
    predicate Valid()
      reads this
    {
      (released ==> aborted) && (aborted ==> !promotionTimer)
    }

    function View(): Local<S>
      reads this
    {
      Local(ttl, deadlineAt, document, etag, aborted, released, operations, current)
    }

    constructor (acquired: Doc<S>, ttl: nat, deadlineAt: Deadline)
      ensures Valid() && !promotionTimer
      ensures View() == Acquired(acquired, ttl, deadlineAt)
    {
      this.ttl, this.deadlineAt := ttl, deadlineAt;
      document, etag := acquired, acquired;
      aborted, released := false, false;
      operations, current, promotionTimer := [], Idle, false;
    }

    method CheckDeadline(now: int) returns (ok: bool)
      requires Valid()
      modifies this`aborted, this`promotionTimer
      ensures Valid()
      ensures ok == (Before(now, deadlineAt) && !old(aborted))
      ensures aborted == !ok && promotionTimer == (old(promotionTimer) && ok)
    {
      if !Before(now, deadlineAt) { Abandon(); }
      ok := !aborted;
    }

    /** The abort signal fires: every timer stops. */
    method Abandon()
      modifies this`aborted, this`promotionTimer
      ensures aborted && !promotionTimer
    {
      aborted, promotionTimer := true, false;
    }

    method Check(now: int) returns (ok: bool)
      requires Valid()
      modifies this`aborted, this`promotionTimer
      ensures Valid()
      ensures ok == Passes(old(View()), now)
      ensures View() == Checked(old(View()), now) && promotionTimer == (old(promotionTimer) && ok)
    {
      ok := CheckDeadline(now);
      if ok && document.expiresAt <= now {
        Abandon();
        ok := false;
      }
    }

    /** Queues a renewal that doubles as the remote ownership check. */
    method EnsureHeld(now: int) returns (ok: bool)
      requires Valid()
      modifies this`aborted, this`operations, this`promotionTimer
      ensures Valid()
      ensures ok == Passes(old(View()), now)
      ensures View() == if ok then Enqueued(old(View()), Renew) else Checked(old(View()), now)
    {
      ok := Check(now);
      if ok { operations := operations + [Renew]; }
    }

    method RenewalTimer()
      requires Valid()
      modifies this`operations
      ensures Valid()
      ensures View() == Enqueued(old(View()), Renew)
    {
      operations := operations + [Renew];
    }

    method UpdateState(state: S)
      requires Valid()
      modifies this`operations
      ensures Valid()
      ensures View() == Enqueued(old(View()), Publish(state))
    {
      operations := operations + [Publish(state)];
    }

    /** Runs the next queued operation up to the point where it awaits the store. */
    method StartNext(now: int) returns (order: Option<WriteOrder<S>>)
      requires Valid() && current.Idle? && operations != []
      modifies this`aborted, this`operations, this`current, this`promotionTimer
      ensures Valid()
      ensures View() == Started(old(View()), now)
      ensures order == if View().operation.Idle? then None else Some(Order(View()))
    {
      var request := operations[0];
      operations := operations[1..];
      if request.Relinquish? {
        current := Releasing;
        return Some(WriteOrder(etag, if document.durable then Some(document.(expiresAt := 0)) else None));
      }
      var ok := Check(now);
      if !ok { return None; }
      var state := if request.Publish? then Some(request.state) else document.state;
      var next := document.(expiresAt := Cap(now + ttl, deadlineAt), state := state);
      current := Writing(request, next);
      order := Some(WriteOrder(etag, Some(next)));
    }

    /** The awaited write returned its new ETag. */
    method Confirm(now: int)
      requires Valid() && current.Writing?
      modifies this`document, this`etag, this`aborted, this`current, this`promotionTimer
      ensures Valid() && !promotionTimer
      ensures View() == Confirmed(old(View()), now)
    {
      etag := current.next;
      var previousExpiry := document.expiresAt;
      document := current.next;
      current := Idle;
      if previousExpiry <= now {
        Abandon();
      } else {
        var _ := Check(now);
      }
      promotionTimer := false;
    }

    method Fail()
      requires Valid() && current.Writing?
      modifies this`aborted, this`current, this`promotionTimer
      ensures Valid()
      ensures View() == Failed(old(View()))
    {
      Abandon();
      current := Idle;
    }

    /** The write of a release ended, either way. */
    method Settle()
      requires Valid() && current.Releasing?
      modifies this`current
      ensures Valid()
      ensures View() == Settled(old(View()))
    {
      current := Idle;
    }

    /** Lifts the deadline, if there is one, and schedules the renewal that makes the store follow. */
    method Promote(now: int) returns (ok: bool)
      requires Valid()
      modifies this`aborted, this`deadlineAt, this`promotionTimer
      ensures Valid()
      ensures ok == Passes(old(View()), now)
      ensures View() == Promoted(old(View()), now)
      ensures promotionTimer == (ok && (old(promotionTimer) || old(deadlineAt).Some?))
    {
      ok := Check(now);
      if ok && deadlineAt.Some? { deadlineAt, promotionTimer := None, true; }
    }

    /** The scheduled renewal is queued like any other. */
    method PromotionTimer()
      requires Valid() && promotionTimer
      modifies this`operations, this`promotionTimer
      ensures Valid() && !promotionTimer
      ensures View() == Enqueued(old(View()), Renew)
    {
      promotionTimer := false;
      operations := operations + [Renew];
    }

    method Release()
      requires Valid()
      modifies this`aborted, this`released, this`operations, this`promotionTimer
      ensures Valid()
      ensures View() == Released(old(View()))
    {
      if released { return; }
      released := true;
      Abandon();
      operations := operations + [Relinquish];
    }
  }
}

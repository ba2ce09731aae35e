/**
 The cell as the object it is: fields that each request and each turn of the queue update. Every
 method is tied to the step of `Cell` it performs, so all that is proved of runs holds of the object.
 */
module CellWorker {
  import opened Common
  import opened Cell

  datatype Reply = Stale | TooLong | Conflict | NoExecution | Closed | Full | Done(result: Terminal) | Later

  const COMMAND_BYTES: nat := 65_536

  /** What the caller of execute or cancel hears at once; `Later` waits for the queue. */
  function ExecuteReply<W>(s: State<W>, id: nat, fingerprint: nat, generation: nat, cancel: bool): Reply {
    if !Current(s.cache, generation) then Stale
    else if id in s.cache.rows then
      if s.cache.rows[id].fingerprint != fingerprint then Conflict
      else if s.cache.rows[id].result.Some? then Done(s.cache.rows[id].result.value)
      else if id in s.active then Later
      else NoExecution
    else if !Mutable(s, generation) then Closed
    else if Busy(s) then Full
    else if cancel then Done(Cancelled)
    else Later
  }

  /** Recovery that has not reached the ids in `left` yet. */
  function RecoveredBut<W>(d: Storage<W>, left: set<nat>): Storage<W> {
    d.(rows := map id | id in d.rows :: if id in left then d.rows[id] else Recovered(d).rows[id])
  }

  lemma RecoverOne<W>(d: Storage<W>, left: set<nat>, id: nat)
    requires id in left && id in d.rows && d.rows[id].result.None?
    ensures WithResult(RecoveredBut(d, left), id, Interrupted) == RecoveredBut(d, left - {id})
  {
    assert WithResult(RecoveredBut(d, left), id, Interrupted).rows == RecoveredBut(d, left - {id}).rows;
  }

  class SandboxCell<W> {
    const cleared: W
    var cache: Storage<W>
    var disk: Storage<W>
    var queue: seq<Job<W>>
    var active: map<nat, nat>
    var aborted: set<nat>
    var timedOut: set<nat>
    var stopping: bool
    var now: int
    var next: nat
    ghost var origin: W
    ghost var starts: set<(nat, nat)>
    ghost var results: set<(nat, Terminal)>
    ghost var held: set<(nat, Terminal)>
    ghost var answers: set<(nat, Terminal)>

    ghost function View(): State<W>
      reads this
    {
      State(origin, cleared, now, disk, cache, queue, active, aborted, timedOut, stopping, next, starts, results,
            held, answers)
    }

    /** A cell starting on whatever its last crash left on disk. */
    constructor (before: State<W>)
      ensures View() == Crashed(before)
    {
      cleared := before.cleared;
      cache := before.disk;
      disk := before.disk;
      queue, active, aborted, timedOut, stopping := [], map[], {}, {}, false;
      now, next := before.now, before.next;
      origin, starts, results, held, answers := before.origin, before.starts, before.results, {}, before.answers;
      new;
      Recover();
    }

    /** Marks every unfinished row as interrupted. */
    method Recover()
      modifies `cache
      ensures cache == Recovered(old(cache))
    {
      var unfinished := set id | id in cache.rows && cache.rows[id].result.None?;
      while unfinished != {}
        invariant cache == RecoveredBut(old(cache), unfinished)
        invariant forall id | id in unfinished :: id in old(cache).rows && old(cache).rows[id].result.None?
        decreases |unfinished|
      {
        var id :| id in unfinished;
        RecoverOne(old(cache), unfinished, id);
        Finish(id, Interrupted);
        unfinished := unfinished - {id};
      }
      assert cache.rows == Recovered(old(cache)).rows;
    }

    method Finish(id: nat, result: Terminal)
      modifies `cache
      ensures cache == WithResult(old(cache), id, result)
    {
      if id in cache.rows {
        cache := cache.(rows := cache.rows[id := cache.rows[id].(result := Some(result))]);
      }
    }

    /** Drops expired rows and all but the newest 127 finished ones. */
    method Prune()
      modifies `cache
      ensures cache == Pruned(old(cache), now)
    {
      var gone := set id | id in cache.rows && !Kept(cache.rows, now, id);
      var tickets := set id | id in gone :: cache.rows[id].ticket;
      var rows := map id | id in cache.rows && id !in gone :: cache.rows[id];
      assert rows == Pruned(cache, now).rows;
      assert tickets == (set id | id in cache.rows && !Kept(cache.rows, now, id) :: cache.rows[id].ticket);
      cache := cache.(rows := rows, forgotten := cache.forgotten + tickets);
    }

    /** Makes room in the journal and adds the unfinished row of a new command. */
    method Record(id: nat, fingerprint: nat)
      modifies `cache
      ensures cache == Journaled(old(View()), id, fingerprint)
    {
      Prune();
      cache := cache.(rows := cache.rows[id := Row(next, fingerprint, now, None)]);
    }

    /** Waits until everything is on disk; the replies held back until then leave the cell. */
    method Sync()
      modifies `disk, `held, `answers
      ensures View() == Flushed(old(View()))
    {
      disk := cache;
      held, answers := {}, answers + held;
    }

    /** Queues a job unless the queue is full; a barrier is queued even then. */
    method Serialize(job: Job<W>, barrier: bool) returns (queued: bool)
      modifies `queue, `next
      ensures queued == (barrier || |old(queue)| < PENDING_LIMIT)
      ensures queued ==> queue == old(queue) + [job] && next == old(next) + 1
      ensures !queued ==> queue == old(queue) && next == old(next)
    {
      if !barrier && |queue| >= PENDING_LIMIT { return false; }
      queue := queue + [job];
      next := next + 1;
      return true;
    }

    method RequestFile(generation: nat, effect: Effect<W>) returns (queued: bool)
      modifies `queue, `next
      ensures View() == Next(old(View()), File(generation, effect)) && queued == !Busy(old(View()))
    {
      queued := Serialize(Mutate(next, generation, effect, Waiting), false);
    }

    method RequestOpen(expected: Option<nat>, initial: W) returns (queued: bool)
      modifies `queue, `next
      ensures View() == Next(old(View()), OpenCell(expected, initial)) && queued == !Busy(old(View()))
    {
      queued := Serialize(Open(next, expected, initial), false);
    }

    /** The result of a command as the journal has it, if it has one. */
    method Status(id: nat, generation: nat) returns (result: Option<Terminal>)
      modifies `held
      ensures View() == Next(old(View()), Event.Status(id, generation))
      ensures result == if Current(cache, generation) && id in cache.rows then cache.rows[id].result else None
    {
      if cache.generation != Some(generation) || cache.deleted || id !in cache.rows { return None; }
      result := cache.rows[id].result;
      if result.Some? { held := held + {(cache.rows[id].ticket, result.value)}; }
    }

    /** A request under an id the journal has: its stored result, its running command, or a conflict. */
    method Repeat(id: nat, fingerprint: nat, effect: Effect<W>, generation: nat, cancel: bool) returns (reply: Reply)
      requires Current(cache, generation) && id in cache.rows
      modifies `aborted, `held
      ensures View() == Executed(old(View()), id, fingerprint, effect, generation, cancel)
      ensures reply == ExecuteReply(old(View()), id, fingerprint, generation, cancel)
    {
      var row := cache.rows[id];
      if row.fingerprint != fingerprint { return Conflict; }
      if row.result.Some? {
        held := held + {(row.ticket, row.result.value)};
        return Done(row.result.value);
      }
      if id !in active { return NoExecution; }
      if cancel { aborted := aborted + {active[id]}; }
      return Later;
    }

    /** A new command, or a cancellation that arrived before its command. */
    method Accept(id: nat, fingerprint: nat, effect: Effect<W>, generation: nat, cancel: bool) returns (reply: Reply)
      requires Current(cache, generation) && id !in cache.rows
      modifies this
      ensures View() == Executed(old(View()), id, fingerprint, effect, generation, cancel)
      ensures reply == ExecuteReply(old(View()), id, fingerprint, generation, cancel)
    {
      if stopping || cache.stopped { return Closed; }
      if |queue| >= PENDING_LIMIT { return Full; }
      Record(id, fingerprint);
      if cancel {
        Finish(id, Cancelled);
        held := held + {(next, Cancelled)};
        next := next + 1;
        return Done(Cancelled);
      }
      active := active[id := next];
      var queued := Serialize(Exec(next, id, effect, Waiting), false);
      return Later;
    }

    /** Execute and cancel up to their first await; `bytes` is the length of the command's source. */
    method Execute(id: nat, fingerprint: nat, effect: Effect<W>, generation: nat, cancel: bool, bytes: nat)
      returns (reply: Reply)
      modifies this
      ensures Current(old(cache), generation) && bytes > COMMAND_BYTES ==> reply == TooLong && View() == old(View())
      ensures !Current(old(cache), generation) || bytes <= COMMAND_BYTES ==>
        && View() == Executed(old(View()), id, fingerprint, effect, generation, cancel)
        && reply == ExecuteReply(old(View()), id, fingerprint, generation, cancel)
    {
      if cache.generation != Some(generation) || cache.deleted { return Stale; }
      if bytes > COMMAND_BYTES { return TooLong; }
      if id in cache.rows {
        reply := Repeat(id, fingerprint, effect, generation, cancel);
      } else {
        reply := Accept(id, fingerprint, effect, generation, cancel);
      }
    }

    method AbortAll()
      modifies `aborted
      ensures aborted == old(aborted) + active.Values
    {
      var left := active.Keys;
      while left != {}
        invariant left <= active.Keys
        invariant aborted == old(aborted) + (set id | id in active && id !in left :: active[id])
        decreases |left|
      {
        var id :| id in left;
        aborted := aborted + {active[id]};
        left := left - {id};
      }
      assert active.Values == set id | id in active :: active[id];
    }

    /** Aborts every active command, then queues the barrier even when the queue is full. */
    method Stop(generation: nat, delete: bool)
      modifies this
      ensures View() == Stopped(old(View()), generation, delete)
    {
      if cache.generation != Some(generation) || cache.deleted { return; }
      stopping := true;
      cache := cache.(stopped := true);
      AbortAll();
      var queued := Serialize(Barrier(next, generation, delete), true);
    }

    method EndHead(job: Job<W>, result: Terminal)
      requires queue != [] && job.Exec? && job == queue[0]
      modifies `cache, `queue
      ensures View() == Ended(old(View()), job, result)
    {
      Finish(job.id, result);
      queue := [InPhase(job, Finished(result))] + queue[1..];
    }

    /** After the last sync the command's promise resolves and everyone waiting for it is answered. */
    method Leave(job: Job<W>, result: Terminal)
      requires queue != [] && job.Exec? && job == queue[0] && job.phase == Finished(result)
      modifies `queue, `active, `results, `held, `answers, `disk
      ensures View() == ExecAdvanced(old(View()), job, true)
    {
      queue := queue[1..];
      active := active - {job.id};
      results, held := results + {(job.ticket, result)}, held + {(job.ticket, result)};
      Sync();
    }

    method TurnExec(ok: bool)
      requires queue != [] && queue[0].Exec?
      modifies this
      ensures View() == ExecAdvanced(old(View()), old(queue)[0], ok)
    {
      var job := queue[0];
      var failure := if job.ticket in timedOut then TimedOut else if job.ticket in aborted then Cancelled else Failed;
      match job.phase
      case Waiting =>
        Sync();
        if job.ticket in aborted {
          EndHead(job, failure);
        } else {
          starts := starts + {(job.id, job.ticket)};
          queue := [InPhase(job, Running(cache.ws))] + queue[1..];
        }
      case Running(base) =>
        var outcome := job.effect(base);
        if !ok || job.ticket in aborted || outcome.None? {
          EndHead(job, failure);
        } else {
          queue := [InPhase(job, Computed(outcome.value))] + queue[1..];
        }
      case Computed(next) =>
        if job.ticket in aborted {
          EndHead(job, failure);
        } else {
          cache := cache.(ws := next, history := cache.history + [Commit(job.ticket, Some(job.id), job.effect)]);
          EndHead(job, Completed);
        }
      case Finished(result) =>
        Leave(job, result);
    }

    method TurnMutate()
      requires queue != [] && queue[0].Mutate?
      modifies `cache, `queue
      ensures View() == MutateAdvanced(old(View()), old(queue)[0])
    {
      var job := queue[0];
      match job.phase
      case Waiting =>
        if cache.generation == Some(job.generation) && !cache.deleted && !stopping && !cache.stopped {
          queue := [InPhase(job, Running(cache.ws))] + queue[1..];
        } else {
          queue := queue[1..];
        }
      case Running(base) =>
        var outcome := job.effect(base);
        queue := if outcome.Some? then [InPhase(job, Computed(outcome.value))] + queue[1..] else queue[1..];
      case Computed(next) =>
        cache := cache.(ws := next, history := cache.history + [Commit(job.ticket, None, job.effect)]);
        queue := queue[1..];
      case Finished(_) =>
        queue := queue[1..];
    }

    method TurnOpen()
      requires queue != [] && queue[0].Open?
      modifies `cache, `queue, `stopping
      ensures View() == OpenAdvanced(old(View()), old(queue)[0])
    {
      var job := queue[0];
      queue := queue[1..];
      if job.expected.Some? && (cache.generation != job.expected || cache.deleted) { return; }
      if cache.generation.None? || cache.deleted {
        cache := Created(cache, job.ticket, job.initial);
      }
      cache := cache.(stopped := false);
      stopping := false;
    }

    method TurnBarrier()
      requires queue != [] && queue[0].Barrier?
      modifies `cache, `disk, `queue, `held, `answers
      ensures View() == BarrierAdvanced(old(View()), old(queue)[0])
    {
      var job := queue[0];
      queue := queue[1..];
      if cache.generation != Some(job.generation) || cache.deleted { return; }
      if job.delete {
        cache := Erased(cache, job.ticket, cleared);
      }
      Sync();
    }

    /** Runs the next awaited stretch of the head of the queue. */
    method Turn(ok: bool)
      modifies this
      ensures View() == Advanced(old(View()), ok)
    {
      if queue == [] { return; }
      match queue[0]
      case Exec(_, _, _, _) => TurnExec(ok);
      case Mutate(_, _, _, _) => TurnMutate();
      case Open(_, _, _) => TurnOpen();
      case Barrier(_, _, _) => TurnBarrier();
    }
  }
}

/**
 What the command journal keeps in every run: a command is started at most once, only when its row is
 already on disk (`Traced`), and its own result says completed exactly when it is among the commits
 (`Settled`).
 */
module CellJournal {
  import opened Common
  import opened Cell
  import opened CellSafety

  // ------------------------------------------------------------------ Starts, in every run

  /** The journal still has the row, or has forgotten it for good. */
  predicate Known<W>(d: Storage<W>, id: nat, ticket: nat) {
    ticket in d.forgotten || (id in d.rows && d.rows[id].ticket == ticket)
  }

  predicate StartsKnown<W>(starts: set<(nat, nat)>, d: Storage<W>) {
    forall p | p in starts :: Known(d, p.0, p.1)
  }

  /** A queued command is known to the journal until it ends, and not started while it waits. */
  predicate JobTraced<W>(job: Job<W>, starts: set<(nat, nat)>, d: Storage<W>) {
    job.Exec? ==>
      && (job.phase.Finished? || Known(d, job.id, job.ticket))
      && (job.phase.Waiting? ==> forall p | p in starts :: p.1 != job.ticket)
  }

  ghost predicate Traced<W>(s: State<W>) {
    && (forall p | p in s.starts :: p.1 < s.next)
    && StartsKnown(s.starts, s.cache) && StartsKnown(s.starts, s.disk)
    && (forall k | 0 <= k < |s.queue| :: JobTraced(s.queue[k], s.starts, s.cache))
    && s.disk.history <= s.cache.history
  }

  /** Nothing known is lost: rows only leave the journal by being forgotten. */
  ghost predicate Keeps<W>(d: Storage<W>, e: Storage<W>) {
    && (forall i, t | Known(d, i, t) :: Known(e, i, t))
    && d.history <= e.history
  }

  lemma JournaledKnows<W>(s: State<W>, id: nat, fingerprint: nat, i: nat, ticket: nat)
    requires id !in s.cache.rows && Known(s.cache, i, ticket)
    ensures Known(Journaled(s, id, fingerprint), i, ticket)
  {
    if ticket !in s.cache.forgotten && !Kept(s.cache.rows, s.now, i) {
      assert ticket in Pruned(s.cache, s.now).forgotten;
    }
  }

  lemma ExecuteTraced<W>(s: State<W>, id: nat, fingerprint: nat, effect: Effect<W>, generation: nat, cancel: bool)
    requires Traced(s)
    ensures Traced(Executed(s, id, fingerprint, effect, generation, cancel))
  {
    if Current(s.cache, generation) && id !in s.cache.rows && Mutable(s, generation) && !Busy(s) {
      forall i, t | Known(s.cache, i, t) ensures Known(Journaled(s, id, fingerprint), i, t) {
        JournaledKnows(s, id, fingerprint, i, t);
      }
    }
  }

  lemma EndedTraced<W>(s: State<W>, job: Job<W>, cache: Storage<W>, result: Terminal)
    requires Traced(s) && s.queue != [] && job == s.queue[0] && job.Exec? && Keeps(s.cache, cache)
    ensures Traced(Ended(s.(cache := cache), job, result))
  {
    assert Keeps(s.cache, WithResult(cache, job.id, result));
  }

  lemma ExecTraced<W>(s: State<W>, ok: bool)
    requires QueueCore(s.queue, s.cache.history, s.next) && Traced(s) && s.queue != [] && s.queue[0].Exec?
    ensures Traced(ExecAdvanced(s, s.queue[0], ok))
  {
    var job := s.queue[0];
    match job.phase
    case Waiting =>
      var synced := Flushed(s);
      if job.ticket in s.aborted { EndedTraced(synced, job, s.cache, Failure(s, job.ticket)); }
      else {
        assert forall k | 0 < k < |s.queue| :: s.queue[k].ticket != job.ticket;
      }
    case Running(base) =>
      if !ok || job.ticket in s.aborted || job.effect(base).None? {
        EndedTraced(s, job, s.cache, Failure(s, job.ticket));
      }
    case Computed(next) =>
      if job.ticket in s.aborted { EndedTraced(s, job, s.cache, Failure(s, job.ticket)); }
      else { EndedTraced(s, job, Committed(s.cache, job.ticket, Some(job.id), job.effect, next), Completed); }
    case Finished(result) =>
  }

  lemma PoppedTraced<W>(s: State<W>, cache: Storage<W>)
    requires Traced(s) && s.queue != [] && Keeps(s.cache, cache)
    ensures Traced(Popped(s.(cache := cache)))
  {
  }

  lemma MutateTraced<W>(s: State<W>)
    requires Traced(s) && s.queue != [] && s.queue[0].Mutate?
    ensures Traced(MutateAdvanced(s, s.queue[0]))
  {
    var t := MutateAdvanced(s, s.queue[0]);
    if |t.queue| == |s.queue| - 1 { PoppedTraced(s, t.cache); }
  }

  lemma OpenTraced<W>(s: State<W>)
    requires Traced(s) && s.queue != [] && s.queue[0].Open?
    ensures Traced(OpenAdvanced(s, s.queue[0]))
  {
    PoppedTraced(s, OpenAdvanced(s, s.queue[0]).cache);
  }

  lemma BarrierTraced<W>(s: State<W>)
    requires Traced(s) && s.queue != [] && s.queue[0].Barrier?
    ensures Traced(BarrierAdvanced(s, s.queue[0]))
  {
    PoppedTraced(s, BarrierAdvanced(s, s.queue[0]).cache);
  }

  lemma AdvanceTraced<W>(s: State<W>, ok: bool)
    requires QueueCore(s.queue, s.cache.history, s.next) && Traced(s)
    ensures Traced(Advanced(s, ok))
  {
    if s.queue != [] {
      match s.queue[0]
      case Exec(_, _, _, _) => ExecTraced(s, ok);
      case Mutate(_, _, _, _) => MutateTraced(s);
      case Open(_, _, _) => OpenTraced(s);
      case Barrier(_, _, _) => BarrierTraced(s);
    }
  }

  lemma QuietTraced<W>(s: State<W>, e: Event<W>)
    requires Traced(s) && !e.Execute? && !e.Advance?
    ensures Traced(Next(s, e))
  {
  }

  lemma TracedNext<W>(s: State<W>, e: Event<W>)
    requires Core(s) && Traced(s)
    ensures Traced(Next(s, e))
  {
    match e
    case Execute(id, fingerprint, effect, generation, cancel) =>
      ExecuteTraced(s, id, fingerprint, effect, generation, cancel);
    case Advance(ok) => AdvanceTraced(s, ok);
    case _ => QuietTraced(s, e);
  }

  // ------------------------------------------------------------------ Tickets, in every run

  /** Generations are tickets of opens that ran before everything queued, and no flag is raised for a
      request that was not made yet. */
  predicate Numbered<W>(s: State<W>) {
    && (forall t | t in s.timedOut :: t < s.next) && (forall t | t in s.aborted :: t < s.next)
    && (forall id | id in s.active :: s.active[id] < s.next)
    && GenerationsPast(s.queue, s.cache.generation)
  }

  predicate GenerationsPast<W>(queue: seq<Job<W>>, generation: Option<nat>) {
    && (generation.Some? ==> forall k | 0 <= k < |queue| :: generation.value < queue[k].ticket)
    && (forall i, k | 0 <= i < |queue| && 0 <= k < |queue| && queue[i].Barrier? ::
          queue[i].generation < queue[k].ticket)
  }

  lemma PastAppend<W>(queue: seq<Job<W>>, generation: Option<nat>, job: Job<W>)
    requires GenerationsPast(queue, generation)
    requires forall k | 0 <= k < |queue| :: queue[k].ticket < job.ticket
    requires generation.Some? ==> generation.value < job.ticket
    requires job.Barrier? ==> generation == Some(job.generation)
    ensures GenerationsPast(queue + [job], generation)
  {
  }

  lemma PastHead<W>(queue: seq<Job<W>>, generation: Option<nat>, job: Job<W>)
    requires queue != [] && GenerationsPast(queue, generation) && job.ticket == queue[0].ticket && !job.Barrier?
    ensures GenerationsPast([job] + queue[1..], generation)
  {
  }

  lemma EnqueuedNumbered<W>(s: State<W>, job: Job<W>)
    requires Core(s) && Numbered(s) && job.ticket == s.next
    requires job.Barrier? ==> s.cache.generation == Some(job.generation)
    ensures Numbered(Enqueued(s, job))
  {
    PastAppend(s.queue, s.cache.generation, job);
  }

  lemma ExecuteNumbered<W>(s: State<W>, id: nat, fingerprint: nat, effect: Effect<W>, generation: nat, cancel: bool)
    requires Core(s) && Numbered(s)
    ensures Numbered(Executed(s, id, fingerprint, effect, generation, cancel))
  {
    if Current(s.cache, generation) && id !in s.cache.rows && Mutable(s, generation) && !Busy(s) && !cancel {
      PastAppend(s.queue, s.cache.generation, Exec(s.next, id, effect, Waiting));
    }
  }

  lemma PastTail<W>(queue: seq<Job<W>>, generation: Option<nat>)
    requires queue != [] && GenerationsPast(queue, generation)
    ensures GenerationsPast(queue[1..], generation)
  {
    forall k | 0 <= k < |queue[1..]| ensures queue[1..][k] == queue[k + 1] {}
  }

  lemma PastCreated<W>(queue: seq<Job<W>>, generation: Option<nat>)
    requires queue != [] && GenerationsPast(queue, generation)
    requires forall i, j | 0 <= i < j < |queue| :: queue[i].ticket < queue[j].ticket
    ensures GenerationsPast(queue[1..], Some(queue[0].ticket))
  {
    PastTail(queue, generation);
  }

  /** What one turn of the queue does to the queue and the generation. */
  ghost predicate Turned<W>(s: State<W>, t: State<W>)
    requires s.queue != []
  {
    && t.timedOut == s.timedOut && t.aborted == s.aborted && t.next == s.next
    && (forall id | id in t.active :: id in s.active && t.active[id] == s.active[id])
    && (t.queue == s.queue[1..]
        || (t.queue != [] && t.queue == [t.queue[0]] + s.queue[1..] && t.queue[0].ticket == s.queue[0].ticket
            && !t.queue[0].Barrier?))
    && (t.cache.generation == s.cache.generation
        || (t.cache.generation == Some(s.queue[0].ticket) && t.queue == s.queue[1..]))
  }

  lemma ExecTurned<W>(s: State<W>, ok: bool)
    requires s.queue != [] && s.queue[0].Exec?
    ensures Turned(s, ExecAdvanced(s, s.queue[0], ok))
  {
  }

  lemma MutateTurned<W>(s: State<W>)
    requires s.queue != [] && s.queue[0].Mutate?
    ensures Turned(s, MutateAdvanced(s, s.queue[0]))
  {
  }

  lemma AdvancedTurned<W>(s: State<W>, ok: bool)
    requires s.queue != []
    ensures Turned(s, Advanced(s, ok))
  {
    match s.queue[0]
    case Exec(_, _, _, _) => ExecTurned(s, ok);
    case Mutate(_, _, _, _) => MutateTurned(s);
    case _ =>
  }

  lemma AdvanceNumbered<W>(s: State<W>, ok: bool)
    requires Core(s) && Numbered(s)
    ensures Numbered(Advanced(s, ok))
  {
    if s.queue != [] {
      var t := Advanced(s, ok);
      AdvancedTurned(s, ok);
      PastTail(s.queue, s.cache.generation);
      PastCreated(s.queue, s.cache.generation);
      if t.queue != s.queue[1..] { PastHead(s.queue, s.cache.generation, t.queue[0]); }
    }
  }

  lemma NumberedNext<W>(s: State<W>, e: Event<W>)
    requires Core(s) && Numbered(s)
    ensures Numbered(Next(s, e))
  {
    match e
    case Execute(id, fingerprint, effect, generation, cancel) =>
      ExecuteNumbered(s, id, fingerprint, effect, generation, cancel);
    case File(generation, effect) => if !Busy(s) { EnqueuedNumbered(s, Mutate(s.next, generation, effect, Waiting)); }
    case OpenCell(expected, initial) => if !Busy(s) { EnqueuedNumbered(s, Open(s.next, expected, initial)); }
    case Stop(generation, delete) =>
      if Current(s.cache, generation) { PastAppend(s.queue, s.cache.generation, Barrier(s.next, generation, delete)); }
    case Advance(ok) => AdvanceNumbered(s, ok);
    case _ =>
  }

  function Tickets<W>(history: seq<Commit<W>>): set<nat> {
    set k | 0 <= k < |history| :: history[k].ticket
  }

  lemma TicketsAppend<W>(history: seq<Commit<W>>, commit: Commit<W>)
    ensures Tickets(history + [commit]) == Tickets(history) + {commit.ticket}
  {
    var longer := history + [commit];
    assert longer[|history|] == commit;
    forall t | t in Tickets(history) ensures t in Tickets(longer) {
      var k :| 0 <= k < |history| && history[k].ticket == t;
      assert longer[k] == history[k];
    }
  }

  // ------------------------------------------------------------------ Own results, in every run

  predicate ResultHolds(p: (nat, Terminal), done: set<nat>) {
    p.1 == Completed <==> p.0 in done
  }

  /** What a command's own promise resolved to says completed exactly when its commit is there, in memory
      and on disk, and so does the result of a command about to leave the queue. */
  ghost predicate Settled<W>(s: State<W>) {
    && (forall p | p in s.results ::
          p.0 < s.next && ResultHolds(p, Tickets(s.cache.history)) && ResultHolds(p, Tickets(s.disk.history)))
    && (forall p, k | p in s.results && 0 <= k < |s.queue| :: p.0 < s.queue[k].ticket)
    && (forall p, q | p in s.results && q in s.results && p.0 == q.0 :: p == q)
    && HeadSettled(s)
  }

  predicate HeadSettled<W>(s: State<W>) {
    s.queue != [] && Ending(s.queue[0]) ==>
      ResultHolds((s.queue[0].ticket, s.queue[0].phase.result), Tickets(s.cache.history))
  }

  /** The commits grow by the head's. */
  ghost predicate HeadCommits<W>(s: State<W>, history: seq<Commit<W>>) {
    && s.queue != []
    && (history == s.cache.history
        || (|history| == |s.cache.history| + 1 && history == s.cache.history + [history[|s.cache.history|]]
            && history[|s.cache.history|].ticket == s.queue[0].ticket))
  }

  lemma HeadCommitsKeep<W>(s: State<W>, history: seq<Commit<W>>, p: (nat, Terminal))
    requires HeadCommits(s, history) && p.0 < s.queue[0].ticket && ResultHolds(p, Tickets(s.cache.history))
    ensures ResultHolds(p, Tickets(history))
  {
    if history != s.cache.history {
      TicketsAppend(s.cache.history, history[|s.cache.history|]);
    }
  }

  /** A step of the queue that ends no command's promise. */
  lemma UnsettledStep<W>(s: State<W>, t: State<W>)
    requires Core(s) && Settled(s) && s.queue != [] && HeadCommits(s, t.cache.history)
    requires t.results == s.results && t.next == s.next
    requires t.disk == s.disk || t.disk == t.cache || t.disk == s.cache
    requires t.queue == s.queue[1..]
      || (|t.queue| == |s.queue| && t.queue[1..] == s.queue[1..] && t.queue[0].ticket == s.queue[0].ticket)
    requires HeadSettled(t)
    ensures Settled(t)
  {
    forall p | p in t.results ensures ResultHolds(p, Tickets(t.cache.history)) {
      HeadCommitsKeep(s, t.cache.history, p);
    }
    forall p, k | p in t.results && 0 <= k < |t.queue| ensures p.0 < t.queue[k].ticket {
      if t.queue == s.queue[1..] {
        assert t.queue[k] == s.queue[k + 1];
      } else if k > 0 {
        assert t.queue[k] == t.queue[1..][k - 1] == s.queue[1..][k - 1] == s.queue[k];
      }
    }
  }

  lemma HeadUncommitted<W>(s: State<W>)
    requires Core(s) && s.queue != [] && !Ending(s.queue[0])
    ensures s.queue[0].ticket !in Tickets(s.cache.history)
  {
  }

  /** A stretch of a command before its result leaves: it commits exactly when it ends completed. */
  lemma ExecShape<W>(s: State<W>, ok: bool)
    requires s.queue != [] && s.queue[0].Exec? && !Ending(s.queue[0])
    ensures var job, t := s.queue[0], ExecAdvanced(s, s.queue[0], ok);
      && t.results == s.results && t.next == s.next
      && |t.queue| == |s.queue| && t.queue[1..] == s.queue[1..] && t.queue[0].ticket == job.ticket
      && (if Ending(t.queue[0]) && t.queue[0].phase.result == Completed
          then t.cache.history == s.cache.history + [Commit(job.ticket, Some(job.id), job.effect)]
          else t.cache.history == s.cache.history)
  {
    match s.queue[0].phase
    case Waiting =>
    case Running(_) =>
    case Computed(_) =>
  }

  lemma ExecDisk<W>(s: State<W>, ok: bool)
    requires s.queue != [] && s.queue[0].Exec? && !Ending(s.queue[0])
    ensures var t := ExecAdvanced(s, s.queue[0], ok); t.disk == s.disk || t.disk == t.cache || t.disk == s.cache
  {
  }

  lemma ExecSettled<W>(s: State<W>, ok: bool)
    requires Core(s) && Settled(s) && s.queue != [] && s.queue[0].Exec?
    ensures Settled(ExecAdvanced(s, s.queue[0], ok))
  {
    var job, t := s.queue[0], ExecAdvanced(s, s.queue[0], ok);
    if Ending(job) {
      TailLater(s);
      FinishedSettled(s);
    } else {
      ExecShape(s, ok);
      ExecDisk(s, ok);
      HeadUncommitted(s);
      TicketsAppend(s.cache.history, Commit(job.ticket, Some(job.id), job.effect));
      UnsettledStep(s, t);
    }
  }

  lemma TailLater<W>(s: State<W>)
    requires Core(s) && s.queue != []
    ensures forall k | 0 < k < |s.queue| :: s.queue[0].ticket < s.queue[k].ticket && !Ending(s.queue[k])
    ensures s.queue[0].ticket < s.next
  {
  }

  lemma FinishedSettled<W>(s: State<W>)
    requires Settled(s) && s.queue != [] && Ending(s.queue[0]) && s.queue[0].ticket < s.next
    requires forall k | 0 < k < |s.queue| :: s.queue[0].ticket < s.queue[k].ticket && !Ending(s.queue[k])
    ensures Settled(ExecAdvanced(s, s.queue[0], true))
  {
    var t := ExecAdvanced(s, s.queue[0], true);
    forall k | 0 <= k < |t.queue| ensures t.queue[k] == s.queue[k + 1] {}
  }

  lemma MutateCommits<W>(s: State<W>)
    requires s.queue != [] && s.queue[0].Mutate?
    ensures var t := MutateAdvanced(s, s.queue[0]);
      && HeadCommits(s, t.cache.history) && t.results == s.results && t.disk == s.disk
      && (t.queue == s.queue[1..] || !Ending(t.queue[0]))
  {
  }

  /** A turn of anything but a command commits at most once, under the head's ticket. */
  lemma OtherCommits<W>(s: State<W>, ok: bool)
    requires s.queue != [] && !s.queue[0].Exec?
    ensures var t := Advanced(s, ok);
      && HeadCommits(s, t.cache.history) && t.results == s.results
      && (t.disk == s.disk || t.disk == t.cache) && (t.queue == s.queue[1..] || !Ending(t.queue[0]))
  {
    if s.queue[0].Mutate? { MutateCommits(s); }
  }

  lemma AdvanceSettled<W>(s: State<W>, ok: bool)
    requires Core(s) && Settled(s)
    ensures Settled(Advanced(s, ok))
  {
    if s.queue != [] {
      if s.queue[0].Exec? {
        ExecSettled(s, ok);
      } else {
        OtherCommits(s, ok);
        AdvancedTurned(s, ok);
        assert |s.queue| > 1 ==> !Ending(s.queue[1]);
        UnsettledStep(s, Advanced(s, ok));
      }
    }
  }

  /** Requests queue at the end and write no commit; a crash empties the queue. */
  lemma RequestStep<W>(s: State<W>, e: Event<W>)
    requires !e.Advance?
    ensures var t := Next(s, e);
      && t.results == s.results && s.next <= t.next
      && (t.disk == s.disk || t.disk == s.cache)
      && (e.Crash? ==> t.queue == [] && t.cache.history == s.disk.history)
      && (e.Crash? || (t.cache.history == s.cache.history && s.queue <= t.queue))
      && (e.Crash? || forall k | |s.queue| <= k < |t.queue| :: t.queue[k].ticket == s.next && !Ending(t.queue[k]))
  {
  }

  lemma SettledNext<W>(s: State<W>, e: Event<W>)
    requires Core(s) && Settled(s)
    ensures Settled(Next(s, e))
  {
    if e.Advance? {
      AdvanceSettled(s, e.ok);
    } else {
      RequestStep(s, e);
    }
  }
}

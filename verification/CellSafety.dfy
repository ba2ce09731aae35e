/** Safety of a cell: `Core`, which ties storage, queue and journal together, holds in every run. */
module CellSafety {
  import opened Common
  import opened Cell

  // ------------------------------------------------------------------ Invariant of every run

  predicate Increasing<W>(history: seq<Commit<W>>) {
    forall i, j | 0 <= i < j < |history| :: history[i].ticket < history[j].ticket
  }

  /** Every commit took effect on what the commits before it had left. */
  predicate Effective<W>(origin: W, history: seq<Commit<W>>) {
    forall k | 0 <= k < |history| :: history[k].effect(Fold(origin, history[..k])).Some?
  }

  predicate StorageCore<W(==)>(origin: W, next: nat, d: Storage<W>) {
    && d.ws == Fold(origin, d.history)
    && Increasing(d.history) && Effective(origin, d.history)
    && (forall k | 0 <= k < |d.history| :: d.history[k].ticket < next)
    && (forall id | id in d.rows :: d.rows[id].ticket < next)
    && (forall i, j | i in d.rows && j in d.rows && d.rows[i].ticket == d.rows[j].ticket :: i == j)
    && (forall t | t in d.forgotten :: t < next)
    && (d.generation.Some? ==> d.generation.value < next)
    && |d.rows| <= 159
  }

  predicate Idle<W>(job: Job<W>) {
    (job.Exec? || job.Mutate?) ==> job.phase.Waiting?
  }

  /** The command that has ended but not left the queue may be the last in the history. */
  predicate Ending<W>(job: Job<W>) {
    job.Exec? && job.phase.Finished?
  }

  predicate QueueCore<W>(queue: seq<Job<W>>, history: seq<Commit<W>>, next: nat) {
    && (forall k | 0 <= k < |queue| :: queue[k].ticket < next && (k > 0 ==> Idle(queue[k])))
    && (forall i, j | 0 <= i < j < |queue| :: queue[i].ticket < queue[j].ticket)
    && (forall h, k | 0 <= h < |history| && 0 <= k < |queue| ::
          if k == 0 && Ending(queue[0]) then history[h].ticket <= queue[0].ticket
            else history[h].ticket < queue[k].ticket)
  }

  /** The head works on the workspace that is still the stored one. */
  predicate HeadCore<W(==)>(queue: seq<Job<W>>, ws: W) {
    queue != [] && (queue[0].Exec? || queue[0].Mutate?) ==>
      match queue[0].phase
      case Running(base) => base == ws
      case Computed(next) => queue[0].effect(ws) == Some(next)
      case _ => true
  }

  /** A command of the id is queued or running and has not ended. */
  predicate Pending<W>(queue: seq<Job<W>>, id: nat) {
    exists k :: 0 <= k < |queue| && queue[k].Exec? && queue[k].id == id && !queue[k].phase.Finished?
  }

  predicate RowsPending<W>(rows: map<nat, Row>, queue: seq<Job<W>>) {
    forall id | id in rows && rows[id].result.None? :: Pending(queue, id)
  }

  predicate Core<W(==)>(s: State<W>) {
    && StorageCore(s.origin, s.next, s.cache) && StorageCore(s.origin, s.next, s.disk)
    && QueueCore(s.queue, s.cache.history, s.next) && HeadCore(s.queue, s.cache.ws)
    && RowsPending(s.cache.rows, s.queue)
  }

  lemma FreshCore<W>(origin: W, cleared: W)
    ensures Core(Fresh(origin, cleared))
  {
  }

  // ------------------------------------------------------------------ The journal bound

  lemma {:induction false} Oldest(rows: map<nat, Row>, ids: set<nat>) returns (m: nat)
    requires ids != {} && ids <= rows.Keys
    requires forall i, j | i in rows && j in rows && rows[i].ticket == rows[j].ticket :: i == j
    ensures m in ids && forall j | j in ids && j != m :: Newer(rows[j], rows[m])
  {
    m :| m in ids;
    if ids != {m} {
      var n := Oldest(rows, ids - {m});
      if Newer(rows[m], rows[n]) { m := n; }
      else { assert Newer(rows[n], rows[m]); }
    }
  }

  function FinishedIds(rows: map<nat, Row>): set<nat> {
    set id | id in rows && rows[id].result.Some?
  }

  function UnfinishedIds(rows: map<nat, Row>): set<nat> {
    set id | id in rows && rows[id].result.None?
  }

  /** Pruning leaves at most 127 finished rows, whatever their timestamps. */
  lemma PruneKeepsFew<W>(d: Storage<W>, now: int)
    requires forall i, j | i in d.rows && j in d.rows && d.rows[i].ticket == d.rows[j].ticket :: i == j
    ensures |FinishedIds(Pruned(d, now).rows)| <= JOURNAL_COUNT - 1
    ensures UnfinishedIds(Pruned(d, now).rows) == UnfinishedIds(d.rows)
  {
    var kept := FinishedIds(Pruned(d, now).rows);
    if kept != {} {
      var m := Oldest(d.rows, kept);
      assert kept - {m} <= Ahead(d.rows, m);
      SubsetSize(kept - {m}, Ahead(d.rows, m));
    }
  }

  lemma {:induction false} SubsetSize(a: set<nat>, b: set<nat>)
    requires a <= b
    ensures |a| <= |b|
  {
    if a != {} {
      var x :| x in a;
      SubsetSize(a - {x}, b - {x});
    }
  }

  function QueuedIds<W>(queue: seq<Job<W>>): set<nat> {
    set k | 0 <= k < |queue| && queue[k].Exec? :: queue[k].id
  }

  lemma {:induction false} QueuedIdsBound<W>(queue: seq<Job<W>>)
    ensures |QueuedIds(queue)| <= |queue|
  {
    if queue != [] {
      var n := |queue| - 1;
      QueuedIdsBound(queue[..n]);
      var extra := if queue[n].Exec? then {queue[n].id} else {};
      assert QueuedIds(queue) == QueuedIds(queue[..n]) + extra;
    }
  }

  lemma RowsSplit(rows: map<nat, Row>)
    ensures |rows| == |FinishedIds(rows)| + |UnfinishedIds(rows)|
  {
    assert rows.Keys == FinishedIds(rows) + UnfinishedIds(rows);
  }

  /** The row a new command gets is at most the 159th. */
  lemma JournalBound<W>(s: State<W>, id: nat, fingerprint: nat)
    requires Core(s) && !Busy(s) && id !in s.cache.rows
    ensures |Journaled(s, id, fingerprint).rows| <= 159
  {
    var pruned := Pruned(s.cache, s.now);
    PruneKeepsFew(s.cache, s.now);
    RowsSplit(pruned.rows);
    assert UnfinishedIds(s.cache.rows) <= QueuedIds(s.queue) by {
      forall i | i in UnfinishedIds(s.cache.rows) ensures i in QueuedIds(s.queue) {
        assert Pending(s.queue, i);
      }
    }
    QueuedIdsBound(s.queue);
    SubsetSize(UnfinishedIds(s.cache.rows), QueuedIds(s.queue));
  }

  // ------------------------------------------------------------------ Every step keeps the invariant

  lemma PendingTail<W>(queue: seq<Job<W>>, id: nat)
    requires queue != [] && Pending(queue, id)
    requires !(queue[0].Exec? && queue[0].id == id && !queue[0].phase.Finished?)
    ensures Pending(queue[1..], id)
  {
    var k :| 0 <= k < |queue| && queue[k].Exec? && queue[k].id == id && !queue[k].phase.Finished?;
    assert queue[1..][k - 1] == queue[k];
  }

  lemma PendingAppend<W>(queue: seq<Job<W>>, job: Job<W>, id: nat)
    requires Pending(queue, id)
    ensures Pending(queue + [job], id)
  {
    var k :| 0 <= k < |queue| && queue[k].Exec? && queue[k].id == id && !queue[k].phase.Finished?;
    assert (queue + [job])[k] == queue[k];
  }

  lemma PendingHead<W>(queue: seq<Job<W>>, job: Job<W>, id: nat)
    requires queue != [] && Pending(queue, id)
    requires job.Exec? <==> queue[0].Exec?
    requires job.Exec? && job.id == id && queue[0].id == id ==> !job.phase.Finished?
    requires job.Exec? ==> job.id == queue[0].id
    ensures Pending([job] + queue[1..], id)
  {
    var k :| 0 <= k < |queue| && queue[k].Exec? && queue[k].id == id && !queue[k].phase.Finished?;
    assert ([job] + queue[1..])[k] == if k == 0 then job else queue[k];
  }

  lemma EnqueuedCore<W>(s: State<W>, job: Job<W>)
    requires Core(s) && job.ticket == s.next && Idle(job)
    ensures Core(Enqueued(s, job))
  {
    LaterStorage(s.origin, s.next, s.cache);
    LaterStorage(s.origin, s.next, s.disk);
    EnqueuedQueue(s.queue, s.cache.history, s.next, job);
    forall id | id in s.cache.rows && s.cache.rows[id].result.None? ensures Pending(s.queue + [job], id) {
      PendingAppend(s.queue, job, id);
    }
  }

  lemma PoppedCore<W>(s: State<W>)
    requires Core(s) && s.queue != []
    requires s.queue[0].Exec? ==> s.queue[0].phase.Finished?
    ensures Core(Popped(s))
  {
    forall id | id in s.cache.rows && s.cache.rows[id].result.None? ensures Pending(s.queue[1..], id) {
      PendingTail(s.queue, id);
    }
  }

  lemma EffectiveAppend<W>(origin: W, history: seq<Commit<W>>, commit: Commit<W>)
    requires Effective(origin, history) && commit.effect(Fold(origin, history)).Some?
    ensures Effective(origin, history + [commit])
  {
    var longer := history + [commit];
    forall k | 0 <= k < |longer| ensures longer[k].effect(Fold(origin, longer[..k])).Some? {
      assert longer[..k] == history[..k];
      assert history[..|history|] == history;
    }
  }

  /** Storage after one more commit, whose ticket is newer than all before it. */
  lemma AppendedStorage<W>(origin: W, next: nat, d: Storage<W>, e: Storage<W>, commit: Commit<W>)
    requires StorageCore(origin, next, d) && commit.ticket < next
    requires forall h | 0 <= h < |d.history| :: d.history[h].ticket < commit.ticket
    requires e.history == d.history + [commit] && commit.effect(d.ws) == Some(e.ws)
    requires e.rows == d.rows || e.rows == map[]
    requires forall t | t in e.forgotten :: t < next
    requires e.generation.Some? ==> e.generation.value < next
    ensures StorageCore(origin, next, e)
  {
    assert e.history[..|e.history| - 1] == d.history;
    EffectiveAppend(origin, d.history, commit);
  }

  lemma RecoveredStorage<W>(origin: W, next: nat, d: Storage<W>)
    requires StorageCore(origin, next, d)
    ensures StorageCore(origin, next, Recovered(d))
  {
    assert Recovered(d).rows.Keys == d.rows.Keys;
  }

  lemma ResultStorage<W>(origin: W, next: nat, d: Storage<W>, id: nat, result: Terminal)
    requires StorageCore(origin, next, d)
    ensures StorageCore(origin, next, WithResult(d, id, result))
  {
    if id in d.rows {
      assert WithResult(d, id, result).rows.Keys == d.rows.Keys;
    }
  }

  lemma LaterStorage<W>(origin: W, next: nat, d: Storage<W>)
    requires StorageCore(origin, next, d)
    ensures StorageCore(origin, next + 1, d)
  {
  }

  lemma EnqueuedQueue<W>(queue: seq<Job<W>>, history: seq<Commit<W>>, next: nat, job: Job<W>)
    requires QueueCore(queue, history, next) && job.ticket == next && Idle(job)
    requires forall h | 0 <= h < |history| :: history[h].ticket < next
    ensures QueueCore(queue + [job], history, next + 1)
  {
  }

  lemma LaterQueue<W>(queue: seq<Job<W>>, history: seq<Commit<W>>, next: nat)
    requires QueueCore(queue, history, next)
    ensures QueueCore(queue, history, next + 1)
  {
  }

  /** The head ends with the last commit of the history. */
  lemma EndingQueue<W>(queue: seq<Job<W>>, history: seq<Commit<W>>, next: nat, job: Job<W>, commit: Commit<W>)
    requires queue != [] && QueueCore(queue, history, next) && !Ending(queue[0])
    requires Ending(job) && job.ticket == queue[0].ticket == commit.ticket
    ensures QueueCore([job] + queue[1..], history + [commit], next)
  {
  }

  lemma JournaledStorage<W>(s: State<W>, id: nat, fingerprint: nat)
    requires Core(s) && !Busy(s) && id !in s.cache.rows
    ensures StorageCore(s.origin, s.next + 1, Journaled(s, id, fingerprint))
  {
    JournalBound(s, id, fingerprint);
  }

  /** A queue item that commits `commit` as it leaves the queue. */
  lemma CommittedTail<W>(queue: seq<Job<W>>, history: seq<Commit<W>>, commit: Commit<W>, next: nat, ws: W)
    requires QueueCore(queue, history, next) && queue != [] && !queue[0].Exec? && commit.ticket == queue[0].ticket
    ensures QueueCore(queue[1..], history + [commit], next) && HeadCore(queue[1..], ws)
  {
    assert queue != [queue[0]] ==> Idle(queue[1..][0]);
  }

  lemma CommittedPop<W>(s: State<W>, cache: Storage<W>, commit: Commit<W>)
    requires Core(s) && s.queue != [] && !s.queue[0].Exec?
    requires cache.history == s.cache.history + [commit] && commit.ticket == s.queue[0].ticket
    requires commit.effect(s.cache.ws) == Some(cache.ws)
    requires cache.rows == s.cache.rows || cache.rows == map[]
    requires forall t | t in cache.forgotten :: t < s.next
    requires cache.generation.Some? ==> cache.generation.value < s.next
    ensures Core(Popped(s.(cache := cache)))
  {
    AppendedStorage(s.origin, s.next, s.cache, cache, commit);
    CommittedTail(s.queue, s.cache.history, commit, s.next, cache.ws);
    forall id | id in cache.rows && cache.rows[id].result.None? ensures Pending(s.queue[1..], id) {
      PendingTail(s.queue, id);
    }
  }

  lemma EndedQueueCore<W>(s: State<W>, result: Terminal)
    requires Core(s) && s.queue != [] && s.queue[0].Exec? && !Ending(s.queue[0])
    ensures QueueCore(Ended(s, s.queue[0], result).queue, s.cache.history, s.next)
  {
  }

  lemma EndedCore<W>(s: State<W>, result: Terminal)
    requires Core(s) && s.queue != [] && s.queue[0].Exec? && !Ending(s.queue[0])
    ensures Core(Ended(s, s.queue[0], result))
  {
    var t := Ended(s, s.queue[0], result);
    ResultStorage(s.origin, s.next, s.cache, s.queue[0].id, result);
    EndedQueueCore(s, result);
    forall id | id in t.cache.rows && t.cache.rows[id].result.None? ensures Pending(t.queue, id) {
      PendingHead(s.queue, t.queue[0], id);
    }
  }

  lemma HeadPhaseCore<W>(s: State<W>, phase: Phase<W>)
    requires Core(s) && s.queue != [] && (s.queue[0].Exec? || s.queue[0].Mutate?)
    requires !Ending(s.queue[0])
    requires phase == Running(s.cache.ws) || (phase.Computed? && s.queue[0].effect(s.cache.ws) == Some(phase.next))
    ensures Core(WithHead(s, InPhase(s.queue[0], phase)))
  {
    var t := WithHead(s, InPhase(s.queue[0], phase));
    forall id | id in t.cache.rows && t.cache.rows[id].result.None? ensures Pending(t.queue, id) {
      PendingHead(s.queue, t.queue[0], id);
    }
  }

  /** The state in which a computed command has just committed. */
  function Completing<W>(s: State<W>): State<W>
    requires s.queue != [] && s.queue[0].Exec? && s.queue[0].phase.Computed?
  {
    var job := s.queue[0];
    Ended(s.(cache := Committed(s.cache, job.ticket, Some(job.id), job.effect, job.phase.next)), job, Completed)
  }

  lemma CompletingStorage<W>(s: State<W>)
    requires Core(s) && s.queue != [] && s.queue[0].Exec? && s.queue[0].phase.Computed?
    ensures StorageCore(s.origin, s.next, Completing(s).cache)
    ensures Completing(s).cache.history
         == s.cache.history + [Commit(s.queue[0].ticket, Some(s.queue[0].id), s.queue[0].effect)]
  {
    var job := s.queue[0];
    var cache := Committed(s.cache, job.ticket, Some(job.id), job.effect, job.phase.next);
    AppendedStorage(s.origin, s.next, s.cache, cache, Commit(job.ticket, Some(job.id), job.effect));
    ResultStorage(s.origin, s.next, cache, job.id, Completed);
  }

  lemma CompletingQueue<W>(s: State<W>)
    requires Core(s) && s.queue != [] && s.queue[0].Exec? && s.queue[0].phase.Computed?
    ensures QueueCore(Completing(s).queue, Completing(s).cache.history, s.next)
    ensures HeadCore(Completing(s).queue, Completing(s).cache.ws)
  {
    CompletingStorage(s);
    var job := s.queue[0];
    EndingQueue(s.queue, s.cache.history, s.next, Completing(s).queue[0], Commit(job.ticket, Some(job.id), job.effect));
  }

  lemma CommandCommits<W>(s: State<W>)
    requires Core(s) && s.queue != [] && s.queue[0].Exec? && s.queue[0].phase.Computed?
    ensures Core(Completing(s))
  {
    CompletingStorage(s);
    CompletingQueue(s);
    var t := Completing(s);
    forall id | id in t.cache.rows && t.cache.rows[id].result.None? ensures Pending(t.queue, id) {
      PendingHead(s.queue, t.queue[0], id);
    }
  }

  lemma ExecKeeps<W>(s: State<W>, ok: bool)
    requires Core(s) && s.queue != [] && s.queue[0].Exec?
    ensures Core(ExecAdvanced(s, s.queue[0], ok))
  {
    var job := s.queue[0];
    match job.phase
    case Waiting =>
      var synced := Flushed(s);
      if job.ticket in s.aborted { EndedCore(synced, Failure(s, job.ticket)); }
      else { HeadPhaseCore(synced.(starts := s.starts + {(job.id, job.ticket)}), Running(s.cache.ws)); }
    case Running(base) =>
      if !ok || job.ticket in s.aborted || job.effect(base).None? { EndedCore(s, Failure(s, job.ticket)); }
      else { HeadPhaseCore(s, Computed(job.effect(base).value)); }
    case Computed(next) =>
      if job.ticket in s.aborted { EndedCore(s, Failure(s, job.ticket)); }
      else { CommandCommits(s); }
    case Finished(result) => PoppedCore(s);
  }

  lemma MutateKeeps<W>(s: State<W>)
    requires Core(s) && s.queue != [] && s.queue[0].Mutate?
    ensures Core(MutateAdvanced(s, s.queue[0]))
  {
    var job := s.queue[0];
    match job.phase
    case Waiting =>
      if Mutable(s, job.generation) { HeadPhaseCore(s, Running(s.cache.ws)); } else { PoppedCore(s); }
    case Running(base) =>
      if job.effect(base).Some? { HeadPhaseCore(s, Computed(job.effect(base).value)); } else { PoppedCore(s); }
    case Computed(next) =>
      CommittedPop(s, Committed(s.cache, job.ticket, None, job.effect, next), Commit(job.ticket, None, job.effect));
    case Finished(_) => PoppedCore(s);
  }

  lemma ReopenedCore<W>(s: State<W>)
    requires Core(s)
    ensures Core(s.(cache := s.cache.(stopped := false), stopping := false))
  {
  }

  lemma OpenKeeps<W>(s: State<W>)
    requires Core(s) && s.queue != [] && s.queue[0].Open?
    ensures Core(OpenAdvanced(s, s.queue[0]))
  {
    var job := s.queue[0];
    if !(job.expected.Some? && !Current(s.cache, job.expected.value)) && (s.cache.generation.None? || s.cache.deleted) {
      var created := Created(s.cache, job.ticket, job.initial);
      CommittedPop(s, created, created.history[|s.cache.history|]);
      ReopenedCore(Popped(s.(cache := created)));
    } else {
      PoppedCore(s);
      ReopenedCore(Popped(s));
    }
  }

  lemma BarrierKeeps<W>(s: State<W>)
    requires Core(s) && s.queue != [] && s.queue[0].Barrier?
    ensures Core(BarrierAdvanced(s, s.queue[0]))
  {
    var job := s.queue[0];
    if Current(s.cache, job.generation) && job.delete {
      var erased := Erased(s.cache, job.ticket, s.cleared);
      CommittedPop(s, erased, erased.history[|s.cache.history|]);
    } else {
      PoppedCore(s);
    }
  }

  lemma JournaledPending<W>(s: State<W>, id: nat, fingerprint: nat, job: Job<W>)
    requires RowsPending(s.cache.rows, s.queue) && job.Exec? && job.id == id && !job.phase.Finished?
    ensures RowsPending(Journaled(s, id, fingerprint).rows, s.queue + [job])
  {
    var rows, queue := Journaled(s, id, fingerprint).rows, s.queue + [job];
    forall i | i in rows && rows[i].result.None? ensures Pending(queue, i) {
      if i == id {
        assert queue[|s.queue|] == job;
      } else {
        PendingAppend(s.queue, job, i);
      }
    }
  }

  lemma CoreWithJob<W>(s: State<W>, t: State<W>, job: Job<W>)
    requires t.origin == s.origin && t.next == s.next + 1 && t.disk == s.disk && t.queue == s.queue + [job]
    requires StorageCore(t.origin, t.next, t.cache) && StorageCore(s.origin, s.next, s.disk)
    requires t.cache.history == s.cache.history && t.cache.ws == s.cache.ws && job.ticket == s.next && Idle(job)
    requires QueueCore(s.queue, s.cache.history, s.next) && HeadCore(s.queue, s.cache.ws)
    requires forall h | 0 <= h < |s.cache.history| :: s.cache.history[h].ticket < s.next
    requires RowsPending(t.cache.rows, t.queue)
    ensures Core(t)
  {
    LaterStorage(s.origin, s.next, s.disk);
    EnqueuedQueue(s.queue, s.cache.history, s.next, job);
  }

  /** A row no command is queued for yet: it is cancelled at once or queued next. */
  lemma JournaledCore<W>(s: State<W>, id: nat, fingerprint: nat, effect: Effect<W>)
    requires Core(s) && !Busy(s) && id !in s.cache.rows
    ensures Core(Enqueued(s.(cache := Journaled(s, id, fingerprint), active := s.active[id := s.next]),
                          Exec(s.next, id, effect, Waiting)))
  {
    JournaledStorage(s, id, fingerprint);
    var job := Exec(s.next, id, effect, Waiting);
    JournaledPending(s, id, fingerprint, job);
    CoreWithJob(s, Enqueued(s.(cache := Journaled(s, id, fingerprint), active := s.active[id := s.next]), job), job);
  }

  lemma JournalChanged<W>(s: State<W>, cache: Storage<W>)
    requires Core(s) && StorageCore(s.origin, s.next + 1, cache)
    requires cache.history == s.cache.history && cache.ws == s.cache.ws && RowsPending(cache.rows, s.queue)
    ensures Core(s.(cache := cache, next := s.next + 1))
  {
    LaterStorage(s.origin, s.next, s.disk);
    LaterQueue(s.queue, s.cache.history, s.next);
  }

  lemma CancelledPending<W>(s: State<W>, id: nat, fingerprint: nat)
    requires RowsPending(s.cache.rows, s.queue)
    ensures RowsPending(WithResult(Journaled(s, id, fingerprint), id, Cancelled).rows, s.queue)
  {
    var rows := WithResult(Journaled(s, id, fingerprint), id, Cancelled).rows;
    forall i | i in rows && rows[i].result.None? ensures Pending(s.queue, i) {
      assert i != id && i in s.cache.rows;
    }
  }

  lemma CancelledCore<W>(s: State<W>, id: nat, fingerprint: nat)
    requires Core(s) && !Busy(s) && id !in s.cache.rows
    ensures Core(s.(cache := WithResult(Journaled(s, id, fingerprint), id, Cancelled), next := s.next + 1))
  {
    JournaledStorage(s, id, fingerprint);
    ResultStorage(s.origin, s.next + 1, Journaled(s, id, fingerprint), id, Cancelled);
    CancelledPending(s, id, fingerprint);
    JournalChanged(s, WithResult(Journaled(s, id, fingerprint), id, Cancelled));
  }

  lemma RepliedCore<W>(s: State<W>, ticket: nat, result: Terminal)
    requires Core(s)
    ensures Core(Replied(s, ticket, result))
  {
  }

  lemma ExecuteKeeps<W>(s: State<W>, id: nat, fingerprint: nat, effect: Effect<W>, generation: nat, cancel: bool)
    requires Core(s)
    ensures Core(Executed(s, id, fingerprint, effect, generation, cancel))
  {
    if Current(s.cache, generation) && id !in s.cache.rows && Mutable(s, generation) && !Busy(s) {
      if cancel {
        CancelledCore(s, id, fingerprint);
        var t := s.(cache := WithResult(Journaled(s, id, fingerprint), id, Cancelled), next := s.next + 1);
        RepliedCore(t, s.next, Cancelled);
        assert Executed(s, id, fingerprint, effect, generation, cancel) == Replied(t, s.next, Cancelled);
      } else {
        JournaledCore(s, id, fingerprint, effect);
      }
    }
  }

  lemma CrashedCore<W>(s: State<W>)
    requires Core(s)
    ensures Core(Crashed(s))
  {
    RecoveredStorage(s.origin, s.next, s.disk);
  }

  lemma StoppedCore<W>(s: State<W>, generation: nat, delete: bool)
    requires Core(s)
    ensures Core(Stopped(s, generation, delete))
  {
    if Current(s.cache, generation) {
      EnqueuedCore(s.(stopping := true, cache := s.cache.(stopped := true), aborted := s.aborted + s.active.Values),
                   Barrier(s.next, generation, delete));
    }
  }

  lemma AdvancedCore<W>(s: State<W>, ok: bool)
    requires Core(s)
    ensures Core(Advanced(s, ok))
  {
    if s.queue != [] {
      match s.queue[0]
      case Exec(_, _, _, _) => ExecKeeps(s, ok);
      case Mutate(_, _, _, _) => MutateKeeps(s);
      case Open(_, _, _) => OpenKeeps(s);
      case Barrier(_, _, _) => BarrierKeeps(s);
    }
  }

  lemma AcceptedCore<W>(s: State<W>, job: Job<W>)
    requires Core(s) && job.ticket == s.next && Idle(job)
    ensures Core(if Busy(s) then s else Enqueued(s, job))
  {
    if !Busy(s) { EnqueuedCore(s, job); }
  }

  lemma StatusCore<W>(s: State<W>, id: nat, generation: nat)
    requires Core(s)
    ensures Core(Next(s, Status(id, generation)))
  {
    if id in s.cache.rows && s.cache.rows[id].result.Some? {
      RepliedCore(s, s.cache.rows[id].ticket, s.cache.rows[id].result.value);
    }
  }

  /** Time, a flush or a timeout. */
  lemma QuietEventCore<W>(s: State<W>, e: Event<W>)
    requires Core(s) && (e.Tick? || e.Flush? || e.Timeout?)
    ensures Core(Next(s, e))
  {
    match e
    case Tick(_) =>
    case Flush =>
    case Timeout =>
  }

  /** A request that is queued, or refused because the queue is full. */
  lemma QueuedCore<W>(s: State<W>, e: Event<W>)
    requires Core(s) && (e.File? || e.OpenCell?)
    ensures Core(Next(s, e))
  {
    match e
    case File(generation, effect) => AcceptedCore(s, Mutate(s.next, generation, effect, Waiting));
    case OpenCell(expected, initial) => AcceptedCore(s, Open(s.next, expected, initial));
  }

  lemma CoreNext<W>(s: State<W>, e: Event<W>)
    requires Core(s)
    ensures Core(Next(s, e))
  {
    match e
    case Execute(id, fingerprint, effect, generation, cancel) =>
      ExecuteKeeps(s, id, fingerprint, effect, generation, cancel);
    case Status(id, generation) => StatusCore(s, id, generation);
    case File(_, _) => QueuedCore(s, e);
    case OpenCell(_, _) => QueuedCore(s, e);
    case Stop(generation, delete) => StoppedCore(s, generation, delete);
    case Advance(ok) => AdvancedCore(s, ok);
    case Crash => CrashedCore(s);
    case _ => QuietEventCore(s, e);
  }

  lemma {:induction false} RunKeepsCore<W>(s: State<W>, events: seq<Event<W>>)
    requires Core(s)
    ensures Core(Run(s, events))
    decreases |events|
  {
    if events != [] {
      CoreNext(s, events[0]);
      RunKeepsCore(Next(s, events[0]), events[1..]);
    }
  }
}

/**
 What the command journal promises its callers. `Orderly` holds as long as no delete is requested that
 a pending open undoes: then the journal, the answers given and the commits always agree.
 */
module CellAnswers {
  import opened Common
  import opened Cell
  import opened CellSafety
  import opened CellJournal

  // ------------------------------------------------------------------ Answers, in calm runs

  /** A row says completed exactly when its command is among the commits. */
  predicate Ledger(rows: map<nat, Row>, done: set<nat>) {
    forall id | id in rows :: rows[id].result == Some(Completed) <==> rows[id].ticket in done
  }

  predicate JobMatches<W>(job: Job<W>, rows: map<nat, Row>, done: set<nat>) {
    if !job.Exec? then forall id | id in rows :: rows[id].ticket != job.ticket
    else if job.phase.Finished? then
      && (forall id | id in rows && rows[id].ticket == job.ticket :: rows[id].result == Some(job.phase.result))
      && (job.phase.result == Completed <==> job.ticket in done)
    else job.id in rows && rows[job.id].ticket == job.ticket && rows[job.id].result.None?
  }

  predicate QueueMatches<W>(queue: seq<Job<W>>, rows: map<nat, Row>, done: set<nat>) {
    forall k | 0 <= k < |queue| :: JobMatches(queue[k], rows, done)
  }

  function LiveGeneration<W>(d: Storage<W>): Option<nat> {
    if d.deleted then None else d.generation
  }

  predicate Deletes<W>(job: Job<W>, generation: nat) {
    job.Barrier? && job.delete && job.generation == generation
  }

  /** The open takes effect if the generation is still there. */
  predicate Reopens<W>(job: Job<W>, generation: nat) {
    job.Open? && (job.expected.None? || job.expected == Some(generation))
  }

  /** The delete is the one that will find the live generation. */
  predicate WillDelete<W>(queue: seq<Job<W>>, generation: nat, k: nat) {
    k < |queue| && Deletes(queue[k], generation) && forall j | 0 <= j < k :: !Deletes(queue[j], generation)
  }

  /** The delete of the live generation waits behind no open that takes effect and in front of no
      command, and the cell accepts none until then. */
  predicate Discipline<W>(queue: seq<Job<W>>, live: Option<nat>, stopping: bool) {
    live.Some? ==>
      forall k | 0 <= k < |queue| && WillDelete(queue, live.value, k) ::
        && stopping
        && (forall j | 0 <= j < k :: !Reopens(queue[j], live.value))
        && (forall j | k < j < |queue| :: !queue[j].Exec?)
  }

  /** An answer is what the journal says, and completed exactly when the command is among the commits. */
  predicate AnswerHolds(a: (nat, Terminal), rows: map<nat, Row>, done: set<nat>) {
    && (a.1 == Completed <==> a.0 in done)
    && (forall id | id in rows && rows[id].ticket == a.0 :: rows[id].result == Some(a.1))
  }

  predicate AnswersHold(answers: set<(nat, Terminal)>, rows: map<nat, Row>, done: set<nat>) {
    forall a | a in answers :: AnswerHolds(a, rows, done)
  }

  predicate JobAnswered<W>(job: Job<W>, a: (nat, Terminal)) {
    a.0 == job.ticket ==> job.Exec? && job.phase == Finished(a.1)
  }

  predicate QueueAnswered<W>(queue: seq<Job<W>>, answers: set<(nat, Terminal)>) {
    forall a, k | a in answers && 0 <= k < |queue| :: JobAnswered(queue[k], a)
  }

  predicate Stable(answers: set<(nat, Terminal)>) {
    forall a, b | a in answers && b in answers && a.0 == b.0 :: a == b
  }

  function Given<W>(s: State<W>): set<(nat, Terminal)> {
    s.answers + s.held
  }

  ghost predicate Orderly<W>(s: State<W>) {
    && Ledger(s.cache.rows, Tickets(s.cache.history)) && Ledger(s.disk.rows, Tickets(s.disk.history))
    && QueueMatches(s.queue, s.cache.rows, Tickets(s.cache.history))
    && Discipline(s.queue, LiveGeneration(s.cache), s.stopping)
    && AnswersHold(Given(s), s.cache.rows, Tickets(s.cache.history))
    && AnswersHold(s.answers, s.disk.rows, Tickets(s.disk.history))
    && QueueAnswered(s.queue, Given(s))
    && Stable(Given(s)) && (forall a | a in Given(s) :: a.0 < s.next)
  }

  /** An open is pending that will find the generation and take the stop back, since no delete of the
      generation comes before it. */
  predicate Undone<W>(queue: seq<Job<W>>, generation: nat) {
    exists k :: 0 <= k < |queue| && Reopens(queue[k], generation)
      && forall j | 0 <= j < k :: !Deletes(queue[j], generation)
  }

  /** The one restriction: no delete is requested that a pending open will undo. */
  predicate Calm<W>(s: State<W>, e: Event<W>) {
    e.Stop? && e.delete && Current(s.cache, e.generation) ==> !Undone(s.queue, e.generation)
  }

  predicate CalmRun<W>(s: State<W>, events: seq<Event<W>>)
    decreases |events|
  {
    events == [] || (Calm(s, events[0]) && CalmRun(Next(s, events[0]), events[1..]))
  }

  /** A result for a command that has just been answered from its row or from its end. */
  lemma RepliedOrderly<W>(s: State<W>, ticket: nat, result: Terminal)
    requires Orderly(s) && ticket < s.next
    requires AnswerHolds((ticket, result), s.cache.rows, Tickets(s.cache.history))
    requires forall k | 0 <= k < |s.queue| :: JobAnswered(s.queue[k], (ticket, result))
    requires forall a | a in Given(s) && a.0 == ticket :: a.1 == result
    ensures Orderly(Replied(s, ticket, result))
  {
  }

  lemma FlushedOrderly<W>(s: State<W>)
    requires Orderly(s)
    ensures Orderly(Flushed(s))
  {
    assert Given(Flushed(s)) == Given(s);
  }

  lemma RowReplied<W>(s: State<W>, id: nat)
    requires Core(s) && Orderly(s) && id in s.cache.rows && s.cache.rows[id].result.Some?
    ensures Orderly(Replied(s, s.cache.rows[id].ticket, s.cache.rows[id].result.value))
  {
    var row := s.cache.rows[id];
    forall k | 0 <= k < |s.queue| ensures JobAnswered(s.queue[k], (row.ticket, row.result.value)) {
      assert JobMatches(s.queue[k], s.cache.rows, Tickets(s.cache.history));
    }
    forall a | a in Given(s) && a.0 == row.ticket ensures a.1 == row.result.value {
      assert AnswerHolds(a, s.cache.rows, Tickets(s.cache.history));
    }
    RepliedOrderly(s, row.ticket, row.result.value);
  }

  /** Fewer rows, and a new one with a ticket nobody has seen. */
  predicate NewRow(rows: map<nat, Row>, more: map<nat, Row>, id: nat, ticket: nat) {
    && id !in rows && id in more && more[id].ticket == ticket && more[id].result != Some(Completed)
    && (forall i | i in more && i != id :: i in rows && more[i] == rows[i])
    && (forall i | i in rows && rows[i].result.None? :: i in more)
  }

  lemma NewRowQueue<W>(queue: seq<Job<W>>, rows: map<nat, Row>, more: map<nat, Row>, id: nat, ticket: nat,
                       done: set<nat>)
    requires NewRow(rows, more, id, ticket) && QueueMatches(queue, rows, done)
    requires forall k | 0 <= k < |queue| :: queue[k].ticket < ticket
    ensures QueueMatches(queue, more, done)
  {
    forall k | 0 <= k < |queue| ensures JobMatches(queue[k], more, done) {
      assert JobMatches(queue[k], rows, done);
    }
  }

  lemma NewRowAnswers(answers: set<(nat, Terminal)>, rows: map<nat, Row>, more: map<nat, Row>, id: nat, ticket: nat,
                      done: set<nat>)
    requires NewRow(rows, more, id, ticket) && AnswersHold(answers, rows, done)
    requires forall a | a in answers :: a.0 < ticket
    ensures AnswersHold(answers, more, done)
  {
    forall a | a in answers ensures AnswerHolds(a, more, done) {
      assert AnswerHolds(a, rows, done);
    }
  }

  lemma NewRowLedger(rows: map<nat, Row>, more: map<nat, Row>, id: nat, ticket: nat, done: set<nat>)
    requires NewRow(rows, more, id, ticket) && Ledger(rows, done) && ticket !in done
    ensures Ledger(more, done)
  {
  }

  lemma NextIsNew<W>(s: State<W>)
    requires Core(s)
    ensures s.next !in Tickets(s.cache.history) && forall k | 0 <= k < |s.queue| :: s.queue[k].ticket < s.next
  {
  }

  lemma RowsOrderly<W>(s: State<W>, cache: Storage<W>, id: nat)
    requires s.next !in Tickets(s.cache.history) && forall k | 0 <= k < |s.queue| :: s.queue[k].ticket < s.next
    requires LiveGeneration(cache) == LiveGeneration(s.cache)
    requires Orderly(s) && cache.history == s.cache.history && NewRow(s.cache.rows, cache.rows, id, s.next)
    ensures Orderly(s.(cache := cache, next := s.next + 1))
  {
    var done := Tickets(s.cache.history);
    NewRowQueue(s.queue, s.cache.rows, cache.rows, id, s.next, done);
    NewRowAnswers(Given(s), s.cache.rows, cache.rows, id, s.next, done);
    NewRowLedger(s.cache.rows, cache.rows, id, s.next, done);
    assert Given(s.(cache := cache, next := s.next + 1)) == Given(s);
  }

  lemma JournaledRows<W>(s: State<W>, id: nat, fingerprint: nat)
    requires id !in s.cache.rows
    ensures var rows := Journaled(s, id, fingerprint).rows;
      && id in rows && rows[id] == Row(s.next, fingerprint, s.now, None)
      && (forall i | i in rows && i != id :: i in s.cache.rows && rows[i] == s.cache.rows[i])
      && (forall i | i in s.cache.rows && s.cache.rows[i].result.None? :: i in rows)
    ensures Journaled(s, id, fingerprint).history == s.cache.history
  {
  }

  lemma EnqueuedOrderly<W>(s: State<W>, job: Job<W>, stopping: bool)
    requires Orderly(s.(next := s.next + 1)) && job.ticket == s.next
    requires JobMatches(job, s.cache.rows, Tickets(s.cache.history))
    requires Discipline(s.queue + [job], LiveGeneration(s.cache), stopping)
    requires forall a | a in Given(s) :: a.0 != job.ticket
    ensures Orderly(Enqueued(s.(stopping := stopping), job))
  {
  }

  lemma AppendDiscipline<W>(queue: seq<Job<W>>, live: Option<nat>, stopping: bool, job: Job<W>)
    requires Discipline(queue, live, stopping) && !job.Exec?
    requires live.Some? && Deletes(job, live.value) ==> stopping && !Undone(queue, live.value)
    ensures Discipline(queue + [job], live, stopping)
  {
    var longer := queue + [job];
    if live.Some? {
      forall k | 0 <= k < |longer| && WillDelete(longer, live.value, k)
        ensures stopping && (forall j | 0 <= j < k :: !Reopens(longer[j], live.value))
             && (forall j | k < j < |longer| :: !longer[j].Exec?)
      {
        assert forall j | 0 <= j < k :: longer[j] == queue[j];
        assert forall j | 0 <= j < k :: !Deletes(queue[j], live.value);
        if k < |queue| { assert WillDelete(queue, live.value, k); }
      }
    }
  }

  /** Only a cell without a pending delete accepts a command. */
  lemma NoneWillDelete<W>(queue: seq<Job<W>>, job: Job<W>, live: Option<nat>)
    requires Discipline(queue, live, false) && job.Exec?
    ensures Discipline(queue + [job], live, false)
  {
    var longer := queue + [job];
    if live.Some? {
      forall k | 0 <= k < |queue| ensures WillDelete(longer, live.value, k) ==> WillDelete(queue, live.value, k) {
        assert forall j | 0 <= j < k :: longer[j] == queue[j];
      }
    }
  }

  lemma AcceptedOrderly<W>(s: State<W>, id: nat, fingerprint: nat, effect: Effect<W>)
    requires Core(s) && Orderly(s) && id !in s.cache.rows && !s.stopping
    ensures Orderly(Enqueued(s.(cache := Journaled(s, id, fingerprint), active := s.active[id := s.next]),
                             Exec(s.next, id, effect, Waiting)))
  {
    JournaledRows(s, id, fingerprint);
    var cache := Journaled(s, id, fingerprint);
    NextIsNew(s);
    RowsOrderly(s, cache, id);
    var job := Exec(s.next, id, effect, Waiting);
    NoneWillDelete(s.queue, job, LiveGeneration(s.cache));
    var t := s.(cache := cache, active := s.active[id := s.next]);
    ActiveOrderly(s.(cache := cache, next := s.next + 1), t.active);
    EnqueuedOrderly(t, job, s.stopping);
    assert t.(stopping := s.stopping) == t;
  }

  lemma ActiveOrderly<W>(s: State<W>, active: map<nat, nat>)
    requires Orderly(s)
    ensures Orderly(s.(active := active))
  {
  }

  lemma CancelledOrderly<W>(s: State<W>, id: nat, fingerprint: nat)
    requires Core(s) && Orderly(s) && id !in s.cache.rows
    ensures Orderly(Replied(s.(cache := WithResult(Journaled(s, id, fingerprint), id, Cancelled), next := s.next + 1),
                            s.next, Cancelled))
  {
    JournaledRows(s, id, fingerprint);
    var cache := WithResult(Journaled(s, id, fingerprint), id, Cancelled);
    NextIsNew(s);
    RowsOrderly(s, cache, id);
    var t := s.(cache := cache, next := s.next + 1);
    forall i | i in cache.rows && cache.rows[i].ticket == s.next ensures i == id {
      assert i != id ==> i in s.cache.rows;
    }
    RepliedOrderly(t, s.next, Cancelled);
  }

  lemma ExecuteOrderly<W>(s: State<W>, id: nat, fingerprint: nat, effect: Effect<W>, generation: nat, cancel: bool)
    requires Core(s) && Orderly(s)
    ensures Orderly(Executed(s, id, fingerprint, effect, generation, cancel))
  {
    if !Current(s.cache, generation) {
    } else if id in s.cache.rows {
      if s.cache.rows[id].fingerprint == fingerprint && s.cache.rows[id].result.Some? { RowReplied(s, id); }
    } else if Mutable(s, generation) && !Busy(s) {
      if cancel { CancelledOrderly(s, id, fingerprint); } else { AcceptedOrderly(s, id, fingerprint, effect); }
    }
  }

  lemma WaitingOrderly<W>(s: State<W>, job: Job<W>, stopping: bool)
    requires Core(s) && Orderly(s) && job.ticket == s.next && !job.Exec?
    requires Discipline(s.queue + [job], LiveGeneration(s.cache), stopping)
    ensures Orderly(Enqueued(s.(stopping := stopping), job))
  {
    EnqueuedOrderly(s, job, stopping);
  }

  lemma StopDiscipline<W>(queue: seq<Job<W>>, live: Option<nat>, stopping: bool)
    requires Discipline(queue, live, stopping)
    ensures Discipline(queue, live, true)
  {
  }

  lemma StoppedOrderly<W>(s: State<W>, generation: nat, delete: bool)
    requires Core(s) && Orderly(s) && Calm(s, Stop(generation, delete))
    ensures Orderly(Stopped(s, generation, delete))
  {
    if Current(s.cache, generation) {
      var t := s.(cache := s.cache.(stopped := true), aborted := s.aborted + s.active.Values);
      StopDiscipline(s.queue, LiveGeneration(s.cache), s.stopping);
      AppendDiscipline(s.queue, LiveGeneration(s.cache), true, Barrier(s.next, generation, delete));
      WaitingOrderly(t, Barrier(s.next, generation, delete), true);
    }
  }

  lemma CrashedOrderly<W>(s: State<W>)
    requires Orderly(s)
    ensures Orderly(Crashed(s))
  {
    var rows := Recovered(s.disk).rows;
    assert Tickets(Recovered(s.disk).history) == Tickets(s.disk.history);
    assert Given(Crashed(s)) == s.answers;
    forall a | a in s.answers ensures AnswerHolds(a, rows, Tickets(s.disk.history)) {
      assert AnswerHolds(a, s.disk.rows, Tickets(s.disk.history));
    }
  }

  // ------------------------------------------------------------------ The head of the queue, in calm runs

  lemma PoppedDiscipline<W>(queue: seq<Job<W>>, live: Option<nat>, stopping: bool)
    requires queue != [] && Discipline(queue, live, stopping) && (live.Some? ==> !Deletes(queue[0], live.value))
    ensures Discipline(queue[1..], live, stopping)
  {
    var rest := queue[1..];
    if live.Some? {
      forall k | 0 <= k < |rest| && WillDelete(rest, live.value, k)
        ensures stopping && (forall j | 0 <= j < k :: !Reopens(rest[j], live.value))
             && (forall j | k < j < |rest| :: !rest[j].Exec?)
      {
        forall j | 0 <= j < k + 1 ensures !Deletes(queue[j], live.value) {
          if j > 0 { assert queue[j] == rest[j - 1]; }
        }
        assert WillDelete(queue, live.value, k + 1);
        forall j | 0 <= j < k ensures !Reopens(rest[j], live.value) { assert rest[j] == queue[j + 1]; }
      }
    }
  }

  lemma PoppedOrderly<W>(s: State<W>)
    requires Orderly(s) && s.queue != [] && Discipline(s.queue[1..], LiveGeneration(s.cache), s.stopping)
    ensures Orderly(Popped(s))
  {
  }

  /** A queue item other than a command commits and leaves. */
  lemma CommittedOrderly<W>(s: State<W>, cache: Storage<W>, commit: Commit<W>)
    requires Core(s) && Orderly(s) && s.queue != [] && !s.queue[0].Exec? && commit.ticket == s.queue[0].ticket
    requires cache.history == s.cache.history + [commit] && cache.rows == s.cache.rows
    requires Discipline(s.queue[1..], LiveGeneration(cache), s.stopping)
    ensures Orderly(Popped(s.(cache := cache)))
  {
    TicketsAppend(s.cache.history, commit);
    var done := Tickets(s.cache.history);
    assert JobMatches(s.queue[0], s.cache.rows, done);
    forall k | 0 < k < |s.queue| ensures JobMatches(s.queue[k], cache.rows, Tickets(cache.history)) {
      assert JobMatches(s.queue[k], s.cache.rows, done);
    }
    forall a | a in Given(s) ensures AnswerHolds(a, cache.rows, Tickets(cache.history)) {
      assert AnswerHolds(a, s.cache.rows, done) && JobAnswered(s.queue[0], a);
    }
    var t := s.(cache := cache);
    assert QueueAnswered(s.queue[1..], Given(s));
    assert QueueMatches(Popped(t).queue, cache.rows, Tickets(cache.history)) by {
      forall k | 0 <= k < |s.queue| - 1 ensures JobMatches(s.queue[1..][k], cache.rows, Tickets(cache.history)) {
        assert s.queue[1..][k] == s.queue[k + 1];
      }
    }
  }

  lemma ErasedOrderly<W>(s: State<W>)
    requires Core(s) && Orderly(s) && s.queue != [] && s.queue[0].Barrier? && s.queue[0].delete
    requires Current(s.cache, s.queue[0].generation)
    ensures Orderly(Popped(s.(cache := Erased(s.cache, s.queue[0].ticket, s.cleared))))
  {
    var cache := Erased(s.cache, s.queue[0].ticket, s.cleared);
    var done := Tickets(s.cache.history);
    assert WillDelete(s.queue, s.queue[0].generation, 0);
    TicketsAppend(s.cache.history, cache.history[|s.cache.history|]);
    forall a | a in Given(s) ensures AnswerHolds(a, cache.rows, Tickets(cache.history)) {
      assert AnswerHolds(a, s.cache.rows, done) && JobAnswered(s.queue[0], a);
    }
    forall k | 0 <= k < |s.queue| - 1 ensures JobMatches(s.queue[1..][k], cache.rows, Tickets(cache.history)) {
      assert s.queue[1..][k] == s.queue[k + 1];
    }
    assert QueueAnswered(s.queue[1..], Given(s));
  }

  lemma ReopenedOrderly<W>(s: State<W>)
    requires Orderly(s) && Discipline(s.queue, LiveGeneration(s.cache), false)
    ensures Orderly(s.(cache := s.cache.(stopped := false), stopping := false))
  {
  }

  /** An open that finds the generation has no pending delete of it behind. */
  lemma ReopenDiscipline<W>(queue: seq<Job<W>>, generation: nat, stopping: bool)
    requires queue != [] && Discipline(queue, Some(generation), stopping) && Reopens(queue[0], generation)
    ensures Discipline(queue[1..], Some(generation), false)
  {
    var rest := queue[1..];
    forall k | 0 <= k < |rest| ensures WillDelete(rest, generation, k) ==> WillDelete(queue, generation, k + 1) {
      assert forall j | 0 < j < k + 1 :: queue[j] == rest[j - 1];
    }
  }

  /** Nobody has asked yet to delete a generation created now. */
  lemma NewDiscipline<W>(queue: seq<Job<W>>, generation: Option<nat>, stopping: bool)
    requires queue != [] && GenerationsPast(queue, generation)
    ensures Discipline(queue[1..], Some(queue[0].ticket), stopping)
  {
    forall k | 0 <= k < |queue[1..]| ensures !Deletes(queue[1..][k], queue[0].ticket) {
      assert queue[1..][k] == queue[k + 1];
    }
  }

  lemma OpenOrderly<W>(s: State<W>)
    requires Core(s) && Orderly(s) && Numbered(s) && s.queue != [] && s.queue[0].Open?
    ensures Orderly(OpenAdvanced(s, s.queue[0]))
  {
    var job := s.queue[0];
    if job.expected.Some? && !Current(s.cache, job.expected.value) {
      PoppedDiscipline(s.queue, LiveGeneration(s.cache), s.stopping);
      PoppedOrderly(s);
    } else if s.cache.generation.None? || s.cache.deleted {
      var created := Created(s.cache, job.ticket, job.initial);
      NewDiscipline(s.queue, s.cache.generation, s.stopping);
      NewDiscipline(s.queue, s.cache.generation, false);
      CommittedOrderly(s, created, created.history[|s.cache.history|]);
      ReopenedOrderly(Popped(s.(cache := created)));
    } else {
      ReopenDiscipline(s.queue, s.cache.generation.value, s.stopping);
      StopDiscipline(s.queue[1..], LiveGeneration(s.cache), false);
      PoppedDiscipline(s.queue, LiveGeneration(s.cache), s.stopping);
      PoppedOrderly(s);
      ReopenedOrderly(Popped(s));
    }
  }

  lemma HeadDiscipline<W>(queue: seq<Job<W>>, job: Job<W>, live: Option<nat>, stopping: bool)
    requires queue != [] && Discipline(queue, live, stopping)
    requires (job.Exec? && queue[0].Exec?) || (job.Mutate? && queue[0].Mutate?)
    ensures Discipline([job] + queue[1..], live, stopping)
  {
    var changed := [job] + queue[1..];
    if live.Some? {
      forall k | 0 <= k < |changed| && WillDelete(changed, live.value, k) ensures WillDelete(queue, live.value, k) {
        forall j | 0 <= j < k ensures !Deletes(queue[j], live.value) { assert j > 0 ==> queue[j] == changed[j]; }
      }
    }
  }

  lemma HeadOrderly<W>(s: State<W>, phase: Phase<W>)
    requires Orderly(s) && s.queue != [] && (s.queue[0].Exec? || s.queue[0].Mutate?)
    requires s.queue[0].Exec? ==> !s.queue[0].phase.Finished? && !phase.Finished?
    ensures Orderly(WithHead(s, InPhase(s.queue[0], phase)))
  {
    HeadDiscipline(s.queue, InPhase(s.queue[0], phase), LiveGeneration(s.cache), s.stopping);
  }

  lemma OtherMatches<W>(job: Job<W>, rows: map<nat, Row>, done: set<nat>, id: nat, result: Terminal, more: set<nat>)
    requires id in rows && JobMatches(job, rows, done) && job.ticket != rows[id].ticket && more <= {rows[id].ticket}
    ensures JobMatches(job, rows[id := rows[id].(result := Some(result))], done + more)
  {
  }

  lemma EndedMatches<W>(queue: seq<Job<W>>, job: Job<W>, rows: map<nat, Row>, done: set<nat>, result: Terminal,
                        more: set<nat>)
    requires queue != [] && queue[0] == job && job.Exec? && !job.phase.Finished? && QueueMatches(queue, rows, done)
    requires forall k | 0 < k < |queue| :: queue[k].ticket != job.ticket
    requires if result == Completed then more == {job.ticket} else more == {} && job.ticket !in done
    requires job.id in rows && forall i | i in rows && rows[i].ticket == job.ticket :: i == job.id
    ensures QueueMatches([InPhase(job, Finished(result))] + queue[1..],
                         rows[job.id := rows[job.id].(result := Some(result))], done + more)
  {
    assert JobMatches(job, rows, done);
    forall k | 0 < k < |queue|
      ensures JobMatches(queue[k], rows[job.id := rows[job.id].(result := Some(result))], done + more)
    {
      OtherMatches(queue[k], rows, done, job.id, result, more);
    }
  }

  lemma EndedQueue<W>(s: State<W>, cache: Storage<W>, result: Terminal)
    requires Core(s) && Orderly(s) && s.queue != [] && s.queue[0].Exec? && !s.queue[0].phase.Finished?
    requires cache.rows == s.cache.rows
    requires Tickets(cache.history) == Tickets(s.cache.history)
                                            + if result == Completed then {s.queue[0].ticket} else {}
    ensures QueueMatches(Ended(s, s.queue[0], result).queue, WithResult(cache, s.queue[0].id, result).rows,
                         Tickets(cache.history))
  {
    var job := s.queue[0];
    assert JobMatches(job, s.cache.rows, Tickets(s.cache.history));
    EndedMatches(s.queue, job, s.cache.rows, Tickets(s.cache.history), result,
                 if result == Completed then {job.ticket} else {});
  }

  lemma EndedAnswers<W>(s: State<W>, cache: Storage<W>, result: Terminal)
    requires Core(s) && Orderly(s) && s.queue != [] && s.queue[0].Exec? && !s.queue[0].phase.Finished?
    requires cache.rows == s.cache.rows
    requires Tickets(cache.history) == Tickets(s.cache.history)
                                            + if result == Completed then {s.queue[0].ticket} else {}
    ensures AnswersHold(Given(s), WithResult(cache, s.queue[0].id, result).rows, Tickets(cache.history))
  {
    var job := s.queue[0];
    var done, rows := Tickets(s.cache.history), WithResult(cache, job.id, result).rows;
    assert JobMatches(job, s.cache.rows, done);
    forall a | a in Given(s) ensures AnswerHolds(a, rows, Tickets(cache.history)) {
      assert AnswerHolds(a, s.cache.rows, done) && JobAnswered(job, a);
    }
  }

  lemma EndedLedger<W>(s: State<W>, cache: Storage<W>, result: Terminal)
    requires Core(s) && Orderly(s) && s.queue != [] && s.queue[0].Exec? && !s.queue[0].phase.Finished?
    requires cache.rows == s.cache.rows
    requires Tickets(cache.history) == Tickets(s.cache.history)
                                            + if result == Completed then {s.queue[0].ticket} else {}
    ensures Ledger(WithResult(cache, s.queue[0].id, result).rows, Tickets(cache.history))
  {
    assert JobMatches(s.queue[0], s.cache.rows, Tickets(s.cache.history));
  }

  /** A command ends: its row gets the result, and the commit is there exactly if it completed. */
  lemma EndedOrderly<W>(s: State<W>, cache: Storage<W>, result: Terminal)
    requires Core(s) && Orderly(s) && s.queue != [] && s.queue[0].Exec? && !s.queue[0].phase.Finished?
    requires cache.rows == s.cache.rows && LiveGeneration(cache) == LiveGeneration(s.cache)
    requires Tickets(cache.history) == Tickets(s.cache.history)
                                            + if result == Completed then {s.queue[0].ticket} else {}
    ensures Orderly(Ended(s.(cache := cache), s.queue[0], result))
  {
    EndedQueue(s, cache, result);
    EndedAnswers(s, cache, result);
    EndedLedger(s, cache, result);
    var t := Ended(s.(cache := cache), s.queue[0], result);
    assert t.cache.history == cache.history;
    HeadDiscipline(s.queue, t.queue[0], LiveGeneration(s.cache), s.stopping);
    forall a, k | a in Given(s) && 0 <= k < |t.queue| ensures JobAnswered(t.queue[k], a) {
      assert JobAnswered(s.queue[k], a);
    }
  }

  lemma ExecOrderly<W>(s: State<W>, ok: bool)
    requires Core(s) && Orderly(s) && s.queue != [] && s.queue[0].Exec?
    ensures Orderly(ExecAdvanced(s, s.queue[0], ok))
  {
    var job := s.queue[0];
    match job.phase
    case Waiting =>
      var synced := Flushed(s);
      FlushedOrderly(s);
      if job.ticket in s.aborted { EndedOrderly(synced, s.cache, Failure(s, job.ticket)); }
      else { HeadOrderly(synced.(starts := s.starts + {(job.id, job.ticket)}), Running(s.cache.ws)); }
    case Running(base) =>
      if !ok || job.ticket in s.aborted || job.effect(base).None? { EndedOrderly(s, s.cache, Failure(s, job.ticket)); }
      else { HeadOrderly(s, Computed(job.effect(base).value)); }
    case Computed(next) =>
      if job.ticket in s.aborted { EndedOrderly(s, s.cache, Failure(s, job.ticket)); }
      else {
        TicketsAppend(s.cache.history, Commit(job.ticket, Some(job.id), job.effect));
        EndedOrderly(s, Committed(s.cache, job.ticket, Some(job.id), job.effect, next), Completed);
      }
    case Finished(result) => FinishedOrderly(s);
  }

  lemma FinishedOrderly<W>(s: State<W>)
    requires Core(s) && Orderly(s) && s.queue != [] && Ending(s.queue[0])
    ensures Orderly(ExecAdvanced(s, s.queue[0], true))
  {
    var job := s.queue[0];
    assert JobMatches(job, s.cache.rows, Tickets(s.cache.history));
    PoppedDiscipline(s.queue, LiveGeneration(s.cache), s.stopping);
    PoppedOrderly(s);
    var t := Popped(s).(active := s.active - {job.id}, results := s.results + {(job.ticket, job.phase.result)});
    RepliedOrderly(t, job.ticket, job.phase.result);
    FlushedOrderly(Replied(t, job.ticket, job.phase.result));
  }

  lemma MutateOrderly<W>(s: State<W>)
    requires Core(s) && Orderly(s) && s.queue != [] && s.queue[0].Mutate?
    ensures Orderly(MutateAdvanced(s, s.queue[0]))
  {
    var job := s.queue[0];
    PoppedDiscipline(s.queue, LiveGeneration(s.cache), s.stopping);
    PoppedOrderly(s);
    match job.phase
    case Waiting => if Mutable(s, job.generation) { HeadOrderly(s, Running(s.cache.ws)); }
    case Running(base) => if job.effect(base).Some? { HeadOrderly(s, Computed(job.effect(base).value)); }
    case Computed(next) =>
      CommittedOrderly(s, Committed(s.cache, job.ticket, None, job.effect, next), Commit(job.ticket, None, job.effect));
    case Finished(_) =>
  }

  lemma BarrierOrderly<W>(s: State<W>)
    requires Core(s) && Orderly(s) && s.queue != [] && s.queue[0].Barrier?
    ensures Orderly(BarrierAdvanced(s, s.queue[0]))
  {
    if Current(s.cache, s.queue[0].generation) && s.queue[0].delete {
      ErasedOrderly(s);
      FlushedOrderly(Popped(s.(cache := Erased(s.cache, s.queue[0].ticket, s.cleared))));
    } else {
      PoppedDiscipline(s.queue, LiveGeneration(s.cache), s.stopping);
      PoppedOrderly(s);
      FlushedOrderly(Popped(s));
    }
  }

  lemma AdvanceOrderly<W>(s: State<W>, ok: bool)
    requires Core(s) && Orderly(s) && Numbered(s)
    ensures Orderly(Advanced(s, ok))
  {
    if s.queue != [] {
      match s.queue[0]
      case Exec(_, _, _, _) => ExecOrderly(s, ok);
      case Mutate(_, _, _, _) => MutateOrderly(s);
      case Open(_, _, _) => OpenOrderly(s);
      case Barrier(_, _, _) => BarrierOrderly(s);
    }
  }

  lemma RequestOrderly<W>(s: State<W>, job: Job<W>)
    requires Core(s) && Orderly(s) && job.ticket == s.next && !job.Exec? && !job.Barrier?
    ensures Orderly(if Busy(s) then s else Enqueued(s, job))
  {
    if !Busy(s) {
      AppendDiscipline(s.queue, LiveGeneration(s.cache), s.stopping, job);
      WaitingOrderly(s, job, s.stopping);
    }
  }

  lemma TimeoutOrderly<W>(s: State<W>)
    requires Orderly(s)
    ensures Orderly(Next(s, Timeout))
  {
  }

  lemma StatusOrderly<W>(s: State<W>, id: nat, generation: nat)
    requires Core(s) && Orderly(s)
    ensures Orderly(Next(s, Status(id, generation)))
  {
    if id in s.cache.rows && s.cache.rows[id].result.Some? { RowReplied(s, id); }
  }

  lemma OrderlyNext<W>(s: State<W>, e: Event<W>)
    requires Core(s) && Orderly(s) && Numbered(s) && Calm(s, e)
    ensures Orderly(Next(s, e))
  {
    match e
    case Execute(id, fingerprint, effect, generation, cancel) =>
      ExecuteOrderly(s, id, fingerprint, effect, generation, cancel);
    case Status(id, generation) => StatusOrderly(s, id, generation);
    case File(generation, effect) => RequestOrderly(s, Mutate(s.next, generation, effect, Waiting));
    case OpenCell(expected, initial) => RequestOrderly(s, Open(s.next, expected, initial));
    case Stop(generation, delete) => StoppedOrderly(s, generation, delete);
    case Advance(ok) => AdvanceOrderly(s, ok);
    case Crash => CrashedOrderly(s);
    case Tick(_) =>
    case Flush => FlushedOrderly(s);
    case Timeout => TimeoutOrderly(s);
  }
}

/**
 A delete requested while an open is pending. The open takes the stop back, so commands of the doomed
 generation are accepted behind the delete and outlive their rows. From every state in which that can
 happen, a run follows that breaks the journal's promises; from every other state none does.
 */
module CellRace {
  import opened Common
  import opened Cell
  import opened CellSafety
  import opened CellJournal
  import opened CellAnswers
  import opened CellTheorems

  /** Rows say completed exactly for commits. */
  predicate HonestRows<W>(s: State<W>) {
    Ledger(s.cache.rows, Tickets(s.cache.history)) && Ledger(s.disk.rows, Tickets(s.disk.history))
  }

  /** A command about to start has the row it was accepted with. */
  predicate StartHasItsRow<W>(s: State<W>) {
    s.queue != [] && s.queue[0].Exec? && s.queue[0].phase.Waiting? ==>
      s.queue[0].id in s.cache.rows && s.cache.rows[s.queue[0].id].ticket == s.queue[0].ticket
  }

  predicate StopFree<W>(events: seq<Event<W>>) {
    forall k | 0 <= k < |events| :: !events[k].Stop?
  }

  lemma {:induction false} StopFreeIsCalm<W>(s: State<W>, events: seq<Event<W>>)
    requires StopFree(events)
    ensures CalmRun(s, events)
    decreases |events|
  {
    if events != [] { StopFreeIsCalm(Next(s, events[0]), events[1..]); }
  }

  // ------------------------------------------------------------------ Runs

  lemma {:induction false} RunAppend<W>(s: State<W>, a: seq<Event<W>>, b: seq<Event<W>>)
    ensures Run(s, a + b) == Run(Run(s, a), b)
    decreases |a|
  {
    if a == [] {
      assert a + b == b;
    } else {
      assert (a + b)[1..] == a[1..] + b;
      RunAppend(Next(s, a[0]), a[1..], b);
    }
  }

  lemma RunStep<W>(s: State<W>, events: seq<Event<W>>)
    requires events != []
    ensures Run(s, events) == Run(Next(s, events[0]), events[1..])
  {
  }

  lemma RunThree<W>(s: State<W>, a: Event<W>, b: Event<W>, c: Event<W>)
    ensures Run(s, [a, b, c]) == Next(Next(Next(s, a), b), c)
  {
    assert [a, b, c][1..] == [b, c];
    assert [b, c][1..] == [c];
    assert Run(Next(Next(s, a), b), [c]) == Run(Next(Next(Next(s, a), b), c), []);
  }

  // ------------------------------------------------------------------ Up to the delete

  /** Taking effect, a delete leaves a queued command without its row exactly when a command is
      queued behind it. */
  lemma DeleteOrphans<W>(s: State<W>)
    requires s.queue != [] && s.queue[0].Barrier? && s.queue[0].delete && Current(s.cache, s.queue[0].generation)
    ensures var t := Advanced(s, true);
      (forall k | 0 <= k < |t.queue| :: t.queue[k].Exec? ==>
         Known(t.cache, t.queue[k].id, t.queue[k].ticket) && t.queue[k].id in t.cache.rows)
      <==> (forall j | 0 < j < |s.queue| :: !s.queue[j].Exec?)
  {
    var t := Advanced(s, true);
    forall j | 0 < j < |s.queue| ensures s.queue[j] == t.queue[j - 1] {}
  }

  function Work<W>(job: Job<W>): nat {
    match job
    case Exec(_, _, _, phase) =>
      (match phase case Waiting => 4 case Running(_) => 3 case Computed(_) => 2 case Finished(_) => 1)
    case Mutate(_, _, _, phase) => (match phase case Waiting => 3 case Running(_) => 2 case _ => 1)
    case _ => 1
  }

  function Remaining<W>(queue: seq<Job<W>>): nat {
    if queue == [] then 0 else Work(queue[0]) + Remaining(queue[1..])
  }

  /** The only delete of the live generation is the last of the queue, and the stop that came with it
      has been or will be taken back before it. */
  predicate Draining<W>(s: State<W>, generation: nat) {
    var last := |s.queue| - 1;
    && Current(s.cache, generation) && last >= 0 && Deletes(s.queue[last], generation)
    && (forall j | 0 <= j < last :: !Deletes(s.queue[j], generation))
    && ((!s.stopping && !s.cache.stopped) || exists k :: 0 <= k < last && Reopens(s.queue[k], generation))
  }

  /** What a turn before the delete leaves alone. */
  ghost predicate Aside<W>(s: State<W>, t: State<W>) {
    && t.next == s.next && t.timedOut == s.timedOut && t.aborted == s.aborted && t.cache.rows.Keys == s.cache.rows.Keys
  }

  /** A command or a file operation at the head. */
  lemma DrainHead<W>(s: State<W>, generation: nat)
    requires Draining(s, generation) && |s.queue| > 1 && (s.queue[0].Exec? || s.queue[0].Mutate?)
    ensures var t := Advanced(s, true);
      Aside(s, t) && t.stopping == s.stopping && t.cache.stopped == s.cache.stopped && Current(t.cache, generation)
      && (t.queue == s.queue[1..]
          || (t.queue != [] && t.queue == [t.queue[0]] + s.queue[1..] && (t.queue[0].Exec? || t.queue[0].Mutate?)
              && Work(t.queue[0]) < Work(s.queue[0])))
  {
    if s.queue[0].Exec? {
      DrainExec(s);
      DrainExecStorage(s);
      DrainExecRows(s);
      DrainExecQueue(s);
    }
  }

  lemma DrainExec<W>(s: State<W>)
    requires s.queue != [] && s.queue[0].Exec?
    ensures var t := ExecAdvanced(s, s.queue[0], true);
      && t.next == s.next && t.timedOut == s.timedOut && t.aborted == s.aborted && t.stopping == s.stopping
  {
  }

  lemma DrainExecStorage<W>(s: State<W>)
    requires s.queue != [] && s.queue[0].Exec?
    ensures var cache := ExecAdvanced(s, s.queue[0], true).cache;
      cache.stopped == s.cache.stopped && cache.generation == s.cache.generation && cache.deleted == s.cache.deleted
  {
    match s.queue[0].phase
    case Waiting =>
    case Running(_) =>
    case Computed(_) =>
    case Finished(_) =>
  }

  lemma DrainExecRows<W>(s: State<W>)
    requires s.queue != [] && s.queue[0].Exec?
    ensures ExecAdvanced(s, s.queue[0], true).cache.rows.Keys == s.cache.rows.Keys
  {
    match s.queue[0].phase
    case Waiting =>
    case Running(_) =>
    case Computed(_) =>
    case Finished(_) =>
  }

  lemma DrainExecQueue<W>(s: State<W>)
    requires s.queue != [] && s.queue[0].Exec?
    ensures var queue := ExecAdvanced(s, s.queue[0], true).queue;
      queue == s.queue[1..]
      || (queue != [] && queue == [queue[0]] + s.queue[1..] && queue[0].Exec? && Work(queue[0]) < Work(s.queue[0]))
  {
    match s.queue[0].phase
    case Waiting =>
    case Running(_) =>
    case Computed(_) =>
    case Finished(_) =>
  }

  /** An open that comes too late, one that finds the generation, or a barrier of no effect on it. */
  lemma DrainOther<W>(s: State<W>, generation: nat)
    requires Draining(s, generation) && |s.queue| > 1 && (s.queue[0].Open? || s.queue[0].Barrier?)
    ensures var t := Advanced(s, true);
      Aside(s, t) && Current(t.cache, generation) && t.queue == s.queue[1..]
      && (if Reopens(s.queue[0], generation) then !t.stopping && !t.cache.stopped
          else t.stopping == s.stopping && t.cache.stopped == s.cache.stopped)
  {
    assert !Deletes(s.queue[0], generation);
  }

  lemma DrainingTail<W>(s: State<W>, t: State<W>, generation: nat)
    requires Draining(s, generation) && |s.queue| > 1 && Current(t.cache, generation)
    requires t.queue == s.queue[1..]
      || (t.queue != [] && t.queue == [t.queue[0]] + s.queue[1..] && (t.queue[0].Exec? || t.queue[0].Mutate?))
    requires (t.stopping == s.stopping && t.cache.stopped == s.cache.stopped && !Reopens(s.queue[0], generation))
      || (!t.stopping && !t.cache.stopped)
    ensures Draining(t, generation)
  {
    var shift := |s.queue| - |t.queue|;
    assert forall j | 1 <= j < |s.queue| :: s.queue[j] == t.queue[j - shift];
    forall j | 0 <= j < |t.queue| - 1 ensures !Deletes(t.queue[j], generation) {
      if t.queue == s.queue[1..] { assert t.queue[j] == s.queue[j + 1]; }
      else if j > 0 { assert t.queue[j] == s.queue[j]; }
    }
    if t.stopping || t.cache.stopped {
      var k :| 0 <= k < |s.queue| - 1 && Reopens(s.queue[k], generation);
      assert Reopens(t.queue[k - shift], generation);
    }
  }

  lemma DrainStep<W>(s: State<W>, generation: nat)
    requires Draining(s, generation) && |s.queue| > 1
    ensures var t := Next(s, Advance(true));
      Draining(t, generation) && Aside(s, t) && Remaining(t.queue) < Remaining(s.queue)
  {
    var t := Next(s, Advance(true));
    if s.queue[0].Exec? || s.queue[0].Mutate? {
      DrainHead(s, generation);
    } else {
      DrainOther(s, generation);
    }
    DrainingTail(s, t, generation);
    if t.queue != s.queue[1..] { assert t.queue[1..] == s.queue[1..]; }
  }

  /** Turn by turn the queue comes down to the delete, with the cell open again. */
  lemma {:induction false} Drain<W>(s: State<W>, generation: nat) returns (events: seq<Event<W>>)
    requires Draining(s, generation)
    ensures StopFree(events)
    ensures var t := Run(s, events); Draining(t, generation) && |t.queue| == 1 && Aside(s, t)
    decreases Remaining(s.queue)
  {
    if |s.queue| == 1 {
      events := [];
    } else {
      DrainStep(s, generation);
      var rest := Drain(Next(s, Advance(true)), generation);
      events := [Advance(true)] + rest;
      assert events[1..] == rest;
    }
  }

  // ------------------------------------------------------------------ Behind the delete

  /** The doomed generation's last delete is next, the cell is open, and the id is free. */
  predicate AtDelete<W>(s: State<W>, generation: nat, id: nat) {
    && |s.queue| == 1 && Deletes(s.queue[0], generation) && Current(s.cache, generation)
    && !s.stopping && !s.cache.stopped && id !in s.cache.rows
    && (forall t | t in s.timedOut :: t < s.next) && (forall t | t in s.aborted :: t < s.next)
  }

  /** A command of the deleted generation is all that is queued in a generation just created. */
  ghost predicate Outlived<W>(s: State<W>, id: nat, effect: Effect<W>, initial: W) {
    && s.next >= 2 && s.queue == [Exec(s.next - 1, id, effect, Waiting)] && s.cache.rows == map[]
      && s.cache.ws == initial
    && s.cache.generation == Some(s.next - 2) && !s.cache.deleted && !s.stopping && !s.cache.stopped
    && (forall t | t in s.timedOut :: t < s.next - 1) && (forall t | t in s.aborted :: t < s.next - 1)
  }

  lemma RunTwo<W>(s: State<W>, a: Event<W>, b: Event<W>)
    ensures Run(s, [a, b]) == Next(Next(s, a), b)
  {
    assert [a, b][1..] == [b];
    RunStep(Next(s, a), [b]);
  }

  /** An open and a command are accepted behind the delete. */
  lemma QueuedBehind<W>(s: State<W>, generation: nat, id: nat, fingerprint: nat, effect: Effect<W>, initial: W)
    returns (events: seq<Event<W>>, t: State<W>)
    requires AtDelete(s, generation, id)
    ensures StopFree(events) && Execute(id, fingerprint, effect, generation, false) in events && t == Run(s, events)
    ensures t.queue == [s.queue[0], Open(s.next, None, initial), Exec(s.next + 1, id, effect, Waiting)]
    ensures Current(t.cache, generation) && t.next == s.next + 2 && t.timedOut == s.timedOut && t.aborted == s.aborted
  {
    events := [OpenCell(None, initial), Execute(id, fingerprint, effect, generation, false)];
    assert events[1] == Execute(id, fingerprint, effect, generation, false);
    t := Next(s, events[0]);
    assert t.queue == [s.queue[0], Open(s.next, None, initial)];
    t := Next(t, events[1]);
    RunTwo(s, events[0], events[1]);
  }

  lemma DeleteThenOpen<W>(s: State<W>, generation: nat, ticket: nat, job: Job<W>, initial: W)
    returns (events: seq<Event<W>>, t: State<W>)
    requires |s.queue| == 3 && Deletes(s.queue[0], generation) && Current(s.cache, generation)
    requires s.queue[1] == Open(ticket, None, initial) && s.queue[2] == job
    ensures StopFree(events) && t == Run(s, events)
    ensures t.queue == [job] && t.cache.rows == map[] && t.cache.ws == initial
    ensures t.cache.generation == Some(ticket) && !t.cache.deleted && !t.stopping && !t.cache.stopped
    ensures t.next == s.next && t.timedOut == s.timedOut && t.aborted == s.aborted
  {
    events := [Advance(true), Advance(true)];
    t := Next(s, Advance(true));
    assert t.queue == [Open(ticket, None, initial), job] && t.cache.deleted && t.cache.rows == map[];
    t := Next(t, Advance(true));
    assert t.queue == [job];
    RunTwo(s, Advance(true), Advance(true));
  }

  lemma SlipsIn<W>(s: State<W>, generation: nat, id: nat, fingerprint: nat, effect: Effect<W>, initial: W)
    returns (events: seq<Event<W>>, t: State<W>)
    requires AtDelete(s, generation, id) && generation < s.next
    ensures StopFree(events) && Execute(id, fingerprint, effect, generation, false) in events && t == Run(s, events)
    ensures Outlived(t, id, effect, initial) && t.cache.generation != Some(generation)
  {
    var first, a := QueuedBehind(s, generation, id, fingerprint, effect, initial);
    var second, b := DeleteThenOpen(a, generation, s.next, Exec(s.next + 1, id, effect, Waiting), initial);
    RunAppend(s, first, second);
    events, t := first + second, b;
  }

  /** The id is accepted again; the old command fails and its result lands in the new row. */
  lemma Overwrites<W>(s: State<W>, id: nat, fingerprint: nat, effect: Effect<W>, initial: W)
    returns (events: seq<Event<W>>, t: State<W>)
    requires Outlived(s, id, effect, initial)
    ensures StopFree(events) && t == Run(s, events)
    ensures t.queue == [Exec(s.next - 1, id, effect, Finished(Failed)), Exec(s.next, id, effect, Waiting)]
    ensures (s.next, Failed) in t.held && s.next !in t.aborted
  {
    var accept, again, turn, fail := Execute(id, fingerprint, effect, s.next - 2, false), Status(id, s.next - 2),
      Event<W>.Advance(true), Event<W>.Advance(false);
    events := [accept, turn, fail] + [again];
    t := Next(s, accept);
    assert Pruned(s.cache, s.now).rows == map[];
    assert t.queue == [Exec(s.next - 1, id, effect, Waiting), Exec(s.next, id, effect, Waiting)];
    t := Next(t, turn);
    assert t.queue == [Exec(s.next - 1, id, effect, Running(t.cache.ws)), Exec(s.next, id, effect, Waiting)];
    t := Next(t, fail);
    assert t.queue == [Exec(s.next - 1, id, effect, Finished(Failed)), Exec(s.next, id, effect, Waiting)];
    assert id in t.cache.rows && t.cache.rows[id].ticket == s.next && t.cache.rows[id].result == Some(Failed);
    RunThree(s, accept, turn, fail);
    RunAppend(s, [accept, turn, fail], [again]);
    RunStep(t, [again]);
    t := Next(t, again);
  }

  /** The new command times out, although it was already answered as failed. */
  lemma TimesOut<W>(s: State<W>, orphan: Job<W>, ticket: nat, id: nat, effect: Effect<W>)
    returns (events: seq<Event<W>>, t: State<W>)
    requires s.queue == [orphan, Exec(ticket, id, effect, Waiting)] && orphan.Exec? && orphan.phase == Finished(Failed)
    requires (ticket, Failed) in s.held && ticket !in s.aborted
    ensures StopFree(events) && t == Run(s, events)
    ensures t.queue == [Exec(ticket, id, effect, Finished(TimedOut))] && (ticket, Failed) in t.answers
  {
    events := [Advance(true), Advance(true)] + [Timeout, Advance(true)];
    t := Next(s, Advance(true));
    assert t.queue == [Exec(ticket, id, effect, Waiting)] && (ticket, Failed) in t.answers;
    t := Next(t, Advance(true));
    assert t.queue == [Exec(ticket, id, effect, Running(t.cache.ws))];
    RunTwo(s, Advance(true), Advance(true));
    RunTwo(t, Timeout, Advance(true));
    RunAppend(s, [Advance(true), Advance(true)], [Timeout, Advance(true)]);
    t := Next(t, Timeout);
    t := Next(t, Advance(true));
    assert t.queue == [Exec(ticket, id, effect, Finished(TimedOut))];
  }

  lemma AnswersAgain<W>(s: State<W>, ticket: nat, id: nat, effect: Effect<W>)
    returns (events: seq<Event<W>>, t: State<W>)
    requires s.queue == [Exec(ticket, id, effect, Finished(TimedOut))] && (ticket, Failed) in s.answers
    ensures StopFree(events) && t == Run(s, events) && (ticket, Failed) in t.answers && (ticket, TimedOut) in t.answers
  {
    events := [Advance(true)];
    t := Next(s, Advance(true));
    RunStep(s, events);
  }

  // ------------------------------------------------------------------ Every such state

  /** A delete has been requested that an open in front of it undoes. */
  predicate Doomed<W>(s: State<W>, generation: nat, id: nat) {
    && Draining(s, generation) && id !in s.cache.rows && generation < s.next
    && (forall k | k in s.timedOut :: k < s.next) && (forall k | k in s.aborted :: k < s.next)
  }

  lemma DeleteRequested<W>(s: State<W>, generation: nat, id: nat)
    requires Core(s) && Orderly(s) && Numbered(s) && Current(s.cache, generation) && Undone(s.queue, generation)
    requires id !in s.cache.rows
    ensures Doomed(Next(s, Stop(generation, true)), generation, id)
  {
    var open :| 0 <= open < |s.queue| && Reopens(s.queue[open], generation)
                && forall j | 0 <= j < open :: !Deletes(s.queue[j], generation);
    NoneBeforeUndone(s.queue, generation, s.stopping, open);
    StopDrains(s, generation, open);
    StopKeepsIds(s, generation);
  }

  lemma StopKeepsIds<W>(s: State<W>, generation: nat)
    requires Core(s) && Numbered(s) && Current(s.cache, generation)
    ensures var t := Next(s, Stop(generation, true));
      && t.cache.rows == s.cache.rows && generation < t.next
      && (forall k | k in t.timedOut :: k < t.next) && (forall k | k in t.aborted :: k < t.next)
  {
  }

  lemma StopDrains<W>(s: State<W>, generation: nat, open: nat)
    requires Current(s.cache, generation) && open < |s.queue| && Reopens(s.queue[open], generation)
    requires forall j | 0 <= j < |s.queue| :: !Deletes(s.queue[j], generation)
    ensures Draining(Next(s, Stop(generation, true)), generation)
  {
    var t := Next(s, Stop(generation, true));
    assert t.queue == s.queue + [Barrier(s.next, generation, true)];
    assert Reopens(t.queue[open], generation);
  }

  /** With such an open in front, no delete of the generation is pending yet. */
  lemma NoneBeforeUndone<W>(queue: seq<Job<W>>, generation: nat, stopping: bool, open: nat)
    requires Discipline(queue, Some(generation), stopping)
    requires open < |queue| && Reopens(queue[open], generation)
        && forall j | 0 <= j < open :: !Deletes(queue[j], generation)
    ensures forall j | 0 <= j < |queue| :: !Deletes(queue[j], generation)
  {
    var j := open;
    while j < |queue|
      invariant open <= j <= |queue| && forall i | 0 <= i < j :: !Deletes(queue[i], generation)
    {
      assert !WillDelete(queue, generation, j);
      j := j + 1;
    }
  }

  /** The delete, and a command of the deleted generation alone in the next one. */
  lemma CommandOutlives<W>(s: State<W>, generation: nat, id: nat, fingerprint: nat, effect: Effect<W>, initial: W)
    returns (events: seq<Event<W>>, t: State<W>)
    requires Doomed(s, generation, id)
    ensures StopFree(events) && Execute(id, fingerprint, effect, generation, false) in events
    ensures t == Run(s, events) && Outlived(t, id, effect, initial) && t.cache.generation != Some(generation)
  {
    var turns := Drain(s, generation);
    var slip, after := SlipsIn(Run(s, turns), generation, id, fingerprint, effect, initial);
    RunAppend(s, turns, slip);
    events, t := turns + slip, after;
  }

  lemma OutlivingCommits<W>(s: State<W>, id: nat, effect: Effect<W>, initial: W) returns (t: State<W>)
    requires Outlived(s, id, effect, initial) && effect(initial).Some?
    ensures t == Run(s, ThreeTurns())
    ensures t.cache.generation == s.cache.generation && !t.cache.deleted && t.cache.ws == effect(initial).value
    ensures t.next == s.next && t.cache.history == s.cache.history + [Commit(s.next - 1, Some(id), effect)]
  {
    t := Next(s, Advance(true));
    assert t.queue == [Exec(s.next - 1, id, effect, Running(initial))];
    t := Next(t, Advance(true));
    assert t.queue == [Exec(s.next - 1, id, effect, Computed(effect(initial).value))];
    t := Next(t, Advance(true));
    RunThree(s, Advance(true), Advance(true), Advance(true));
  }

  /** The last commit is that of a command accepted for a generation that is gone. */
  ghost predicate CommitsLate<W>(t: State<W>, generation: nat, ticket: nat, id: nat, effect: Effect<W>, initial: W) {
    && !t.cache.deleted && t.cache.generation.Some? && t.cache.generation != Some(generation)
    && effect(initial) == Some(t.cache.ws)
    && t.cache.history != [] && t.cache.history[|t.cache.history| - 1] == Commit(ticket, Some(id), effect)
  }

  /** Whenever a delete is requested that a pending open undoes, any command may slip in behind it and
      commit its effect in the generation after. */
  lemma OldCommandCommits<W>(s: State<W>, generation: nat, id: nat, fingerprint: nat, effect: Effect<W>, initial: W)
    returns (events: seq<Event<W>>, ticket: nat)
    requires Core(s) && Orderly(s) && Numbered(s) && Current(s.cache, generation) && Undone(s.queue, generation)
    requires id !in s.cache.rows && effect(initial).Some?
    ensures StopFree(events) && Execute(id, fingerprint, effect, generation, false) in events
    ensures CommitsLate(Run(Next(s, Stop(generation, true)), events), generation, ticket, id, effect, initial)
  {
    var first := Next(s, Stop(generation, true));
    DeleteRequested(s, generation, id);
    var before, a := CommandOutlives(first, generation, id, fingerprint, effect, initial);
    var t := OutlivingCommits(a, id, effect, initial);
    ticket := a.next - 1;
    var turns := ThreeTurns<W>();
    events := before + turns;
    RunAppend(first, before, turns);
    LastCommit(a.cache.history, Commit(ticket, Some(id), effect));
  }

  lemma LastCommit<W>(history: seq<Commit<W>>, commit: Commit<W>)
    ensures (history + [commit])[|history + [commit]| - 1] == commit
  {
  }

  function ThreeTurns<W>(): (turns: seq<Event<W>>)
    ensures StopFree(turns)
  {
    [Advance(true), Advance(true), Advance(true)]
  }

  lemma DoomedAnswersTwice<W>(s: State<W>, generation: nat, id: nat, fingerprint: nat, effect: Effect<W>, initial: W)
    returns (events: seq<Event<W>>, ticket: nat)
    requires Doomed(s, generation, id)
    ensures StopFree(events) && (ticket, Failed) in Run(s, events).answers
        && (ticket, TimedOut) in Run(s, events).answers
  {
    var before, a := CommandOutlives(s, generation, id, fingerprint, effect, initial);
    ticket := a.next;
    var overwrite, b := Overwrites(a, id, fingerprint, effect, initial);
    var timeout, c := TimesOut(b, b.queue[0], ticket, id, effect);
    var again, d := AnswersAgain(c, ticket, id, effect);
    RunAppend(s, before, overwrite);
    RunAppend(s, before + overwrite, timeout);
    RunAppend(s, before + overwrite + timeout, again);
    events := before + overwrite + timeout + again;
  }

  /** ... and any id, used again in that generation, is answered twice with different results. */
  lemma UndoneDeleteBreaksAnswers<W>(s: State<W>, generation: nat, id: nat, fingerprint: nat, effect: Effect<W>,
                                     initial: W)
    returns (events: seq<Event<W>>, ticket: nat)
    requires Core(s) && Orderly(s) && Numbered(s) && Current(s.cache, generation) && Undone(s.queue, generation)
    requires id !in s.cache.rows
    ensures StopFree(events)
    ensures var t := Run(Next(s, Stop(generation, true)), events);
      (ticket, Failed) in t.answers && (ticket, TimedOut) in t.answers
  {
    DeleteRequested(s, generation, id);
    events, ticket := DoomedAnswersTwice(Next(s, Stop(generation, true)), generation, id, fingerprint, effect, initial);
  }

  /** The id is accepted again; the old command commits and the new row says completed. */
  lemma FalselyCompletes<W>(s: State<W>, id: nat, fingerprint: nat, effect: Effect<W>, initial: W)
    returns (events: seq<Event<W>>, t: State<W>)
    requires Outlived(s, id, effect, initial) && effect(initial).Some?
    ensures StopFree(events) && t == Run(s, events)
    ensures id in t.cache.rows && t.cache.rows[id].ticket == s.next && t.cache.rows[id].result == Some(Completed)
    ensures t.cache.history == s.cache.history + [Commit(s.next - 1, Some(id), effect)]
  {
    var accept, turn := Execute(id, fingerprint, effect, s.next - 2, false), Event<W>.Advance(true);
    events := [accept, turn] + [turn, turn];
    var a := Next(s, accept);
    assert Pruned(s.cache, s.now).rows == map[];
    assert a.queue == [Exec(s.next - 1, id, effect, Waiting), Exec(s.next, id, effect, Waiting)];
    var b := Next(a, turn);
    assert b.queue == [Exec(s.next - 1, id, effect, Running(initial)), Exec(s.next, id, effect, Waiting)];
    RunTwo(s, accept, turn);
    RunTwo(b, turn, turn);
    RunAppend(s, [accept, turn], [turn, turn]);
    var c := Next(b, turn);
    assert c.queue[0] == Exec(s.next - 1, id, effect, Computed(effect(initial).value));
    assert id in c.cache.rows && c.cache.rows[id].ticket == s.next;
    t := Next(c, turn);
  }

  /** ... the ledger says that it was completed, although it was never run. */
  lemma UndoneDeleteBreaksLedger<W>(s: State<W>, generation: nat, id: nat, fingerprint: nat, effect: Effect<W>,
                                    initial: W)
    returns (events: seq<Event<W>>)
    requires Core(s) && Orderly(s) && Numbered(s) && Current(s.cache, generation) && Undone(s.queue, generation)
    requires id !in s.cache.rows && effect(initial).Some?
    ensures StopFree(events)
    ensures var t := Run(Next(s, Stop(generation, true)), events);
      id in t.cache.rows && t.cache.rows[id].result == Some(Completed)
        && t.cache.rows[id].ticket !in Tickets(t.cache.history)
  {
    DeleteRequested(s, generation, id);
    CoreNext(s, Stop(generation, true));
    events := DoomedLedger(Next(s, Stop(generation, true)), generation, id, fingerprint, effect, initial);
  }

  lemma DoomedLedger<W>(s: State<W>, generation: nat, id: nat, fingerprint: nat, effect: Effect<W>, initial: W)
    returns (events: seq<Event<W>>)
    requires Core(s) && Doomed(s, generation, id) && effect(initial).Some?
    ensures StopFree(events)
    ensures var t := Run(s, events);
      id in t.cache.rows && t.cache.rows[id].result == Some(Completed)
        && t.cache.rows[id].ticket !in Tickets(t.cache.history)
  {
    var before, a := CommandOutlives(s, generation, id, fingerprint, effect, initial);
    RunKeepsCore(s, before);
    NextIsNew(a);
    var after, t := FalselyCompletes(a, id, fingerprint, effect, initial);
    TicketsAppend(a.cache.history, Commit(a.next - 1, Some(id), effect));
    RunAppend(s, before, after);
    events := before + after;
  }

  lemma {:induction false} FreeId(ids: set<nat>) returns (id: nat)
    ensures forall i | i in ids :: i < id
    decreases |ids|
  {
    if ids == {} {
      id := 0;
    } else {
      var i :| i in ids;
      id := FreeId(ids - {i});
      if id <= i { id := i + 1; }
      assert forall j | j in ids :: j == i || j in ids - {i};
    }
  }

  // ------------------------------------------------------------------ Exactly when

  /** However the run goes on, with deletes that no open undoes, each command has one answer ... */
  ghost predicate KeepsAnswers<W(!new)>(s: State<W>) {
    forall events :: CalmRun(s, events) ==> Stable(Run(s, events).answers)
  }

  /** ... rows are honest ... */
  ghost predicate KeepsLedger<W(!new)>(s: State<W>) {
    forall events :: CalmRun(s, events) ==> HonestRows(Run(s, events))
  }

  /** ... and commands start under their rows. */
  ghost predicate KeepsRows<W(!new)>(s: State<W>) {
    forall events :: CalmRun(s, events) ==> StartHasItsRow(Run(s, events))
  }

  lemma AnswersUnsafe<W(!new)>(s: State<W>, generation: nat, id: nat)
    requires Core(s) && Orderly(s) && Numbered(s) && Current(s.cache, generation) && Undone(s.queue, generation)
    requires id !in s.cache.rows
    ensures !KeepsAnswers(Next(s, Stop(generation, true)))
  {
    var first := Next(s, Stop(generation, true));
    var answers, ticket := UndoneDeleteBreaksAnswers(s, generation, id, 0, w => Some(w), s.cleared);
    StopFreeIsCalm(first, answers);
    assert !Stable(Run(first, answers).answers);
  }

  lemma UndoneDeleteIsUnsafe<W(!new)>(s: State<W>, generation: nat)
    requires Core(s) && Orderly(s) && Numbered(s) && Current(s.cache, generation) && Undone(s.queue, generation)
    ensures var first := Next(s, Stop(generation, true));
      !KeepsAnswers(first) && !KeepsLedger(first) && !KeepsRows(first)
  {
    var first := Next(s, Stop(generation, true));
    var id := FreeId(s.cache.rows.Keys);
    var touch := (w: W) => Some(w);
    AnswersUnsafe(s, generation, id);
    var ledger := UndoneDeleteBreaksLedger(s, generation, id, 0, touch, s.cleared);
    StopFreeIsCalm(first, ledger);
    assert !HonestRows(Run(first, ledger));
    DeleteRequested(s, generation, id);
    var rows, t := CommandOutlives(first, generation, id, 0, touch, s.cleared);
    StopFreeIsCalm(first, rows);
    assert !StartHasItsRow(t);
  }

  lemma CalmKeepsPromises<W>(s: State<W>, events: seq<Event<W>>)
    requires Core(s) && Orderly(s) && Numbered(s) && CalmRun(s, events)
    ensures var t := Run(s, events); Stable(t.answers) && HonestRows(t) && StartHasItsRow(t)
  {
    CalmRunKeeps(s, events);
    if !StartHasItsRow(Run(s, events)) { WaitingHasRow(Run(s, events)); }
  }

  lemma OtherDeletesAreSafe<W(!new)>(s: State<W>, generation: nat)
    requires Core(s) && Orderly(s) && Numbered(s) && !Undone(s.queue, generation)
    ensures var first := Next(s, Stop(generation, true)); KeepsAnswers(first) && KeepsLedger(first) && KeepsRows(first)
  {
    var first := Next(s, Stop(generation, true));
    CoreNext(s, Stop(generation, true));
    OrderlyNext(s, Stop(generation, true));
    NumberedNext(s, Stop(generation, true));
    forall events: seq<Event<W>> | CalmRun(first, events)
      ensures Stable(Run(first, events).answers) && HonestRows(Run(first, events)) && StartHasItsRow(Run(first, events))
    {
      CalmKeepsPromises(first, events);
    }
  }

  /** A delete is safe to request exactly when no pending open undoes it: then every run that goes on
      with such deletes only keeps each of the three promises, and otherwise each is broken by one. */
  lemma DeleteIsSafeIffNotUndone<W(!new)>(s: State<W>, generation: nat)
    requires Core(s) && Orderly(s) && Numbered(s) && Current(s.cache, generation)
    ensures !Undone(s.queue, generation) <==> KeepsAnswers(Next(s, Stop(generation, true)))
    ensures !Undone(s.queue, generation) <==> KeepsLedger(Next(s, Stop(generation, true)))
    ensures !Undone(s.queue, generation) <==> KeepsRows(Next(s, Stop(generation, true)))
  {
    if Undone(s.queue, generation) {
      UndoneDeleteIsUnsafe(s, generation);
    } else {
      OtherDeletesAreSafe(s, generation);
    }
  }

  // ------------------------------------------------------------------ From an empty cell

  lemma OpenedOnce<W>(origin: W, cleared: W, initial: W)
    ensures var s := Next(Next(Fresh(origin, cleared), OpenCell(None, initial)), Advance(true));
      && s.queue == [] && s.cache.generation == Some(0) && !s.cache.deleted && s.cache.rows == map[] && s.next == 1
  {
    var s := Next(Fresh(origin, cleared), OpenCell(None, initial));
    assert s.queue == [Open(0, None, initial)];
  }

  lemma OpenedAgain<W>(s: State<W>, initial: W)
    requires s.queue == [] && s.cache.generation == Some(0) && !s.cache.deleted && s.next == 1
    ensures var t := Next(s, OpenCell(Some(0), initial));
      && Current(t.cache, 0) && Undone(t.queue, 0) && t.cache.rows == s.cache.rows
  {
    var t := Next(s, OpenCell(Some(0), initial));
    assert t.queue == [Open(1, Some(0), initial)] && Reopens(t.queue[0], 0);
  }

  /** Such a state is three requests away from an empty cell: an open is still queued when the delete of
      the generation that the open before it created is requested. */
  lemma RaceIsReachable<W>(origin: W, cleared: W, initial: W) returns (events: seq<Event<W>>, s: State<W>)
    ensures StopFree(events) && s == Run(Fresh(origin, cleared), events)
    ensures Core(s) && Orderly(s) && Numbered(s) && Current(s.cache, 0) && Undone(s.queue, 0) && s.cache.rows == map[]
  {
    var first, again := Event<W>.OpenCell(None, initial), Event<W>.OpenCell(Some(0), initial);
    events := [first, Advance(true), again];
    s := Run(Fresh(origin, cleared), events);
    RunThree(Fresh(origin, cleared), first, Advance(true), again);
    OpenedOnce(origin, cleared, initial);
    OpenedAgain(Next(Next(Fresh(origin, cleared), first), Advance(true)), initial);
    FromFresh(origin, cleared, events);
  }

  lemma FromFresh<W>(origin: W, cleared: W, events: seq<Event<W>>)
    requires StopFree(events)
    ensures var s := Run(Fresh(origin, cleared), events); Core(s) && Orderly(s) && Numbered(s)
  {
    FreshCore(origin, cleared);
    StopFreeIsCalm(Fresh(origin, cleared), events);
    CalmRunKeeps(Fresh(origin, cleared), events);
  }

  /** So any command of any cell can come to be answered both failed and timed out. */
  lemma RaceBreaksPromises<W>(origin: W, cleared: W, id: nat, fingerprint: nat, effect: Effect<W>, initial: W)
    returns (events: seq<Event<W>>, ticket: nat)
    ensures var s := Run(Fresh(origin, cleared), events);
      (ticket, Failed) in s.answers && (ticket, TimedOut) in s.answers
    ensures !CalmRun(Fresh(origin, cleared), events)
  {
    var before, s := RaceIsReachable(origin, cleared, initial);
    var rest;
    rest, ticket := UndoneDeleteBreaksAnswers(s, 0, id, fingerprint, effect, initial);
    var after := [Event<W>.Stop(0, true)] + rest;
    assert after[1..] == rest;
    events := before + after;
    RunAppend(Fresh(origin, cleared), before, after);
    if CalmRun(Fresh(origin, cleared), events) {
      FreshCore(origin, cleared);
      CalmKeepsPromises(Fresh(origin, cleared), events);
      assert false;
    }
  }
}

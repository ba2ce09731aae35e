/** What the requests to an idle cell achieve, one by one, from acceptance to the last sync. */
module CellOutcomes {
  import opened Common
  import opened Cell
  import opened CellSafety

  /** The cell lives, takes commands of the generation, and has nothing to do. */
  predicate Ready<W>(s: State<W>, generation: nat) {
    && s.cache.generation == Some(generation) && !s.cache.deleted && !s.cache.stopped && !s.stopping && s.queue == []
    && s.next !in s.aborted && s.next !in s.timedOut
  }

  function Turn<W>(): Event<W> {
    Advance(true)
  }

  lemma {:induction false} RunTail<W>(s: State<W>, e: Event<W>, rest: seq<Event<W>>)
    ensures Run(s, [e] + rest) == Run(Next(s, e), rest)
  {
    assert ([e] + rest)[1..] == rest;
  }

  lemma RunFive<W>(s: State<W>, a: Event<W>, b: Event<W>, c: Event<W>, d: Event<W>, e: Event<W>)
    ensures Run(s, [a, b, c, d, e]) == Next(Next(Next(Next(Next(s, a), b), c), d), e)
  {
    RunTail(s, a, [b, c, d, e]);
    RunFour(Next(s, a), b, c, d, e);
    assert [a] + [b, c, d, e] == [a, b, c, d, e];
  }

  lemma RunFour<W>(s: State<W>, a: Event<W>, b: Event<W>, c: Event<W>, d: Event<W>)
    ensures Run(s, [a, b, c, d]) == Next(Next(Next(Next(s, a), b), c), d)
  {
    RunTail(s, a, [b, c, d]);
    RunTail(Next(s, a), b, [c, d]);
    RunTail(Next(Next(s, a), b), c, [d]);
    RunTail(Next(Next(Next(s, a), b), c), d, []);
    assert [a] + [b, c, d] == [a, b, c, d] && [b] + [c, d] == [b, c, d] && [c] + [d] == [c, d] && [d] + [] == [d];
  }

  // ------------------------------------------------------------------ Commands

  /** The command ended with the result: it is answered, journaled and on disk, and the cell is idle again. */
  ghost predicate Ended<W>(s: State<W>, t: State<W>, id: nat, fingerprint: nat, result: Terminal) {
    && t.queue == [] && t.disk == t.cache && (s.next, result) in t.answers && (s.next, result) in t.results
    && id in t.cache.rows && t.cache.rows[id] == Row(s.next, fingerprint, s.now, Some(result))
    && t.cache.generation == s.cache.generation && t.next == s.next + 1
  }

  lemma Accepted<W>(s: State<W>, id: nat, fingerprint: nat, effect: Effect<W>, generation: nat)
    requires Ready(s, generation) && id !in s.cache.rows
    ensures var a := Next(s, Execute(id, fingerprint, effect, generation, false));
      && a == s.(queue := [Exec(s.next, id, effect, Waiting)], next := s.next + 1, active := s.active[id := s.next],
                 cache := a.cache)
      && a.cache == s.cache.(rows := a.cache.rows, forgotten := a.cache.forgotten)
      && id in a.cache.rows && a.cache.rows[id] == Row(s.next, fingerprint, s.now, None)
  {
  }

  /** A command whose effect is defined completes: its effect is the new workspace, and the only commit. */
  lemma CommandCompletes<W>(s: State<W>, id: nat, fingerprint: nat, effect: Effect<W>, generation: nat, after: W)
    requires Ready(s, generation) && id !in s.cache.rows && effect(s.cache.ws) == Some(after)
    ensures var t := Run(s, [Execute(id, fingerprint, effect, generation, false), Turn(), Turn(), Turn(), Turn()]);
      && Ended(s, t, id, fingerprint, Completed) && t.cache.ws == after && (id, s.next) in t.starts
      && t.cache.history == s.cache.history + [Commit(s.next, Some(id), effect)]
  {
    Accepted(s, id, fingerprint, effect, generation);
    var a := Next(s, Execute(id, fingerprint, effect, generation, false));
    var b := Next(a, Turn());
    assert b.queue == [Exec(s.next, id, effect, Running(s.cache.ws))];
    var c := Next(b, Turn());
    assert c.queue == [Exec(s.next, id, effect, Computed(after))];
    var d := Next(c, Turn());
    assert d.queue == [Exec(s.next, id, effect, Finished(Completed))];
    RunFive(s, Execute(id, fingerprint, effect, generation, false), Turn(), Turn(), Turn(), Turn());
  }

  /** A command that fails, by itself or in the interpreter, leaves the workspace as it was. */
  lemma CommandFails<W>(s: State<W>, id: nat, fingerprint: nat, effect: Effect<W>, generation: nat, ok: bool)
    requires Ready(s, generation) && id !in s.cache.rows && (ok ==> effect(s.cache.ws).None?)
    ensures var t := Run(s, [Execute(id, fingerprint, effect, generation, false), Turn(), Advance(ok), Turn()]);
      Ended(s, t, id, fingerprint, Failed) && t.cache.ws == s.cache.ws && t.cache.history == s.cache.history
  {
    Accepted(s, id, fingerprint, effect, generation);
    var a := Next(s, Execute(id, fingerprint, effect, generation, false));
    var b := Next(a, Turn());
    assert b.queue == [Exec(s.next, id, effect, Running(s.cache.ws))];
    var c := Next(b, Advance(ok));
    assert c.queue == [Exec(s.next, id, effect, Finished(Failed))];
    RunFour(s, Execute(id, fingerprint, effect, generation, false), Turn(), Advance(ok), Turn());
  }

  /** A command cancelled while it is queued never starts. */
  lemma CancelledInQueue<W>(s: State<W>, id: nat, fingerprint: nat, effect: Effect<W>, generation: nat)
    requires Ready(s, generation) && id !in s.cache.rows
    ensures var t := Run(s, [Execute(id, fingerprint, effect, generation, false),
                             Execute(id, fingerprint, effect, generation, true), Turn(), Turn()]);
      && Ended(s, t, id, fingerprint, Cancelled) && t.cache.ws == s.cache.ws && t.cache.history == s.cache.history
      && t.starts == s.starts
  {
    Accepted(s, id, fingerprint, effect, generation);
    var a := Next(s, Execute(id, fingerprint, effect, generation, false));
    var b := Next(a, Execute(id, fingerprint, effect, generation, true));
    assert s.next in b.aborted;
    var c := Next(b, Turn());
    assert c.queue == [Exec(s.next, id, effect, Finished(Cancelled))];
    RunFour(s, Execute(id, fingerprint, effect, generation, false), Execute(id, fingerprint, effect, generation, true),
            Turn(), Turn());
  }

  /** A cancellation or timeout that comes before the commit wins, even when the effect is computed. */
  lemma AbortBeforeCommit<W>(s: State<W>, id: nat, fingerprint: nat, effect: Effect<W>, generation: nat, late: Event<W>)
    requires Ready(s, generation) && id !in s.cache.rows && effect(s.cache.ws).Some?
    requires late == Timeout || late == Execute(id, fingerprint, effect, generation, true)
    ensures var accept := Execute(id, fingerprint, effect, generation, false);
      var t := Run(Next(s, accept), [Turn(), Turn(), late, Turn(), Turn()]);
      && Ended(s, t, id, fingerprint, if late == Timeout then TimedOut else Cancelled)
      && t.cache.ws == s.cache.ws && t.cache.history == s.cache.history
  {
    Accepted(s, id, fingerprint, effect, generation);
    var a := Next(s, Execute(id, fingerprint, effect, generation, false));
    var b := Next(Next(a, Turn()), Turn());
    assert b.queue == [Exec(s.next, id, effect, Computed(effect(s.cache.ws).value))];
    var c := Next(b, late);
    assert c.queue == b.queue && s.next in c.aborted && (s.next in c.timedOut <==> late == Timeout);
    var d := Next(c, Turn());
    assert d.queue == [Exec(s.next, id, effect, Finished(if late == Timeout then TimedOut else Cancelled))];
    RunFive(a, Turn(), Turn(), late, Turn(), Turn());
  }

  /** A cancellation that arrives before its command is remembered: the command is then never run. */
  lemma CancelledBefore<W>(s: State<W>, id: nat, fingerprint: nat, effect: Effect<W>, generation: nat)
    requires Ready(s, generation) && id !in s.cache.rows
    ensures var a := Next(s, Execute(id, fingerprint, effect, generation, true));
      && a.queue == [] && a.cache.ws == s.cache.ws && (s.next, Cancelled) in a.held
      && id in a.cache.rows && a.cache.rows[id] == Row(s.next, fingerprint, s.now, Some(Cancelled))
      && Next(a, Execute(id, fingerprint, effect, generation, false)) == a
  {
    var a := Next(s, Execute(id, fingerprint, effect, generation, true));
    assert a.held + {(s.next, Cancelled)} == a.held;
  }

  // ------------------------------------------------------------------ Stopping and deleting

  /** A stop cancels what is running and keeps new requests out. */
  lemma StopCancels<W>(s: State<W>, id: nat, fingerprint: nat, effect: Effect<W>, generation: nat)
    requires Ready(s, generation) && id !in s.cache.rows
    ensures var accept := Execute(id, fingerprint, effect, generation, false);
      var t := Run(Next(s, accept), [Turn(), Stop(generation, false), Turn(), Turn(), Turn()]);
      && (s.next, Cancelled) in t.answers && t.cache.ws == s.cache.ws && t.cache.history == s.cache.history
      && t.queue == [] && t.cache.stopped && t.stopping && t.disk == t.cache
      && (forall i, f, x, cancel :: i !in t.cache.rows ==> Next(t, Execute(i, f, x, generation, cancel)) == t)
  {
    Accepted(s, id, fingerprint, effect, generation);
    var a := Next(s, Execute(id, fingerprint, effect, generation, false));
    var b := Next(a, Turn());
    assert b.queue == [Exec(s.next, id, effect, Running(s.cache.ws))];
    var c := Next(b, Stop(generation, false));
    assert b.active[id] == s.next && s.next in b.active.Values;
    assert c.queue == [Exec(s.next, id, effect, Running(s.cache.ws)), Barrier(s.next + 1, generation, false)];
    var d := Next(c, Turn());
    assert d.queue == [Exec(s.next, id, effect, Finished(Cancelled)), Barrier(s.next + 1, generation, false)];
    var e := Next(d, Turn());
    assert e.queue == [Barrier(s.next + 1, generation, false)];
    RunFive(a, Turn(), Stop(generation, false), Turn(), Turn(), Turn());
  }

  /** A delete clears the workspace and the journal, on disk too, and nothing of the generation is accepted
      any more. */
  lemma DeleteClears<W>(s: State<W>, generation: nat)
    requires Ready(s, generation)
    ensures var t := Next(Next(s, Stop(generation, true)), Turn());
      && t.cache.ws == s.cleared && t.cache.rows == map[] && t.cache.deleted && t.disk == t.cache && t.queue == []
      && (forall i, f, x, cancel :: Next(t, Execute(i, f, x, generation, cancel)) == t)
      && (forall i :: Next(t, Status(i, generation)) == t)
  {
    var a := Next(s, Stop(generation, true));
    assert a.queue == [Barrier(s.next, generation, true)];
  }

  /** A barrier for a generation that is gone does nothing. */
  lemma StaleStop<W>(s: State<W>, generation: nat, delete: bool)
    requires s.cache.generation != Some(generation) || s.cache.deleted
    ensures Next(s, Stop(generation, delete)) == s
  {
  }

  // ------------------------------------------------------------------ Opening

  /** Opening a cell that was never created, or was deleted, creates one under a generation of its own. */
  lemma OpenCreates<W>(s: State<W>, initial: W)
    requires s.queue == [] && (s.cache.generation.None? || s.cache.deleted)
    ensures var t := Next(Next(s, OpenCell(None, initial)), Turn());
      t.cache.ws == initial && Current(t.cache, s.next) && !t.cache.stopped && !t.stopping && t.queue == []
  {
    assert Next(s, OpenCell(None, initial)).queue == [Open(s.next, None, initial)];
  }

  /** Opening a cell that lives keeps its workspace and generation and lets commands in again. */
  lemma OpenResumes<W>(s: State<W>, expected: Option<nat>, initial: W, generation: nat)
    requires s.queue == [] && s.cache.generation == Some(generation) && !s.cache.deleted
    requires expected.None? || expected == Some(generation)
    ensures var t := Next(Next(s, OpenCell(expected, initial)), Turn());
      && t.cache == s.cache.(stopped := false) && !t.stopping && t.queue == []
  {
    assert Next(s, OpenCell(expected, initial)).queue == [Open(s.next, expected, initial)];
  }

  /** An open that expects another generation, or one that was deleted, does nothing. */
  lemma OpenIsRefused<W>(s: State<W>, expected: nat, initial: W)
    requires s.queue == [] && (s.cache.generation != Some(expected) || s.cache.deleted)
    ensures var t := Next(Next(s, OpenCell(Some(expected), initial)), Turn());
      t.cache == s.cache && t.stopping == s.stopping && t.queue == []
  {
    assert Next(s, OpenCell(Some(expected), initial)).queue == [Open(s.next, Some(expected), initial)];
  }

  // ------------------------------------------------------------------ File operations

  /** A file operation commits its effect, or nothing if it fails. */
  lemma FileOperation<W>(s: State<W>, effect: Effect<W>, generation: nat)
    requires Ready(s, generation)
    ensures var t := Next(Next(Next(s, File(generation, effect)), Turn()), Turn());
      if effect(s.cache.ws).Some?
      then Next(t, Turn()).queue == [] && Next(t, Turn()).cache.ws == effect(s.cache.ws).value
           && Next(t, Turn()).cache.history == s.cache.history + [Commit(s.next, None, effect)]
      else t.queue == [] && t.cache == s.cache
  {
    var a := Next(s, File(generation, effect));
    assert a.queue == [Mutate(s.next, generation, effect, Waiting)];
    var b := Next(a, Turn());
    assert b.queue == [Mutate(s.next, generation, effect, Running(s.cache.ws))];
    var c := Next(b, Turn());
    if effect(s.cache.ws).Some? {
      assert c.queue == [Mutate(s.next, generation, effect, Computed(effect(s.cache.ws).value))];
    }
  }

  /** A file operation that meets a stopped cell or another generation does nothing. */
  lemma FileIsRefused<W>(s: State<W>, effect: Effect<W>, generation: nat)
    requires s.queue == []
    requires s.stopping || s.cache.stopped || s.cache.deleted || s.cache.generation != Some(generation)
    ensures var t := Next(Next(s, File(generation, effect)), Turn()); t.queue == [] && t.cache == s.cache
  {
    assert Next(s, File(generation, effect)).queue == [Mutate(s.next, generation, effect, Waiting)];
  }

  // ------------------------------------------------------------------ Limits

  /** With 32 requests queued everything but a stop or delete is refused, and with fewer nothing is. */
  lemma FullQueue<W>(s: State<W>, id: nat, fingerprint: nat, effect: Effect<W>, generation: nat, initial: W,
                     expected: Option<nat>)
    requires id !in s.cache.rows && Current(s.cache, generation) && !s.stopping && !s.cache.stopped
    ensures (|Next(s, Execute(id, fingerprint, effect, generation, false)).queue| == |s.queue| + 1 <==> |s.queue| < 32)
    ensures (|Next(s, File(generation, effect)).queue| == |s.queue| + 1 <==> |s.queue| < 32)
    ensures (|Next(s, OpenCell(expected, initial)).queue| == |s.queue| + 1 <==> |s.queue| < 32)
    ensures |s.queue| >= 32 ==>
      && Next(s, Execute(id, fingerprint, effect, generation, false)) == s
      && Next(s, Execute(id, fingerprint, effect, generation, true)) == s
      && Next(s, File(generation, effect)) == s && Next(s, OpenCell(expected, initial)) == s
    ensures |Next(s, Stop(generation, true)).queue| == |s.queue| + 1
  {
  }

  /** A result is forgotten a day after its command was accepted, and not while fewer than 127 newer results
      are there. */
  lemma ResultsAreKept<W>(d: Storage<W>, now: int, id: nat)
    requires id in d.rows && d.rows[id].result.Some?
    ensures d.rows[id].created < now - 86_400_000 ==> id !in Pruned(d, now).rows
    ensures d.rows[id].created >= now - 86_400_000 && |FinishedIds(d.rows)| <= 127 ==>
      id in Pruned(d, now).rows && Pruned(d, now).rows[id] == d.rows[id]
  {
    if |FinishedIds(d.rows)| <= 127 {
      assert Ahead(d.rows, id) <= FinishedIds(d.rows) - {id};
      SubsetSize(Ahead(d.rows, id), FinishedIds(d.rows) - {id});
    }
  }

  /** Of two results of the last day, the one of the command accepted later is kept longer. */
  lemma NewerIsKeptLonger<W>(d: Storage<W>, now: int, older: nat, newer: nat)
    requires older in Pruned(d, now).rows && newer in d.rows && d.rows[older].result.Some? && d.rows[newer].result.Some?
    requires d.rows[older].created < d.rows[newer].created
      || (d.rows[older].created == d.rows[newer].created && d.rows[older].ticket < d.rows[newer].ticket)
    ensures newer in Pruned(d, now).rows
  {
    assert Ahead(d.rows, newer) <= Ahead(d.rows, older);
    SubsetSize(Ahead(d.rows, newer), Ahead(d.rows, older));
  }

  // ------------------------------------------------------------------ Crashes

  /** A crash keeps exactly what was on disk: unfinished commands are interrupted there, results stay, and
      replies that were not out are not given. */
  lemma CrashKeepsDisk<W>(s: State<W>)
    ensures var t := Next(s, Crash);
      && t.cache.ws == s.disk.ws && t.cache.generation == s.disk.generation && t.cache.deleted == s.disk.deleted
      && t.cache.rows.Keys == s.disk.rows.Keys
      && (forall i | i in s.disk.rows :: t.cache.rows[i] ==
            if s.disk.rows[i].result.Some? then s.disk.rows[i] else s.disk.rows[i].(result := Some(Interrupted)))
      && t.answers == s.answers && t.held == {} && t.queue == [] && t.active == map[] && !t.stopping
      && t.aborted == {} && t.timedOut == {}
  {
  }

  /** Asking for the status of a command gives its stored result, without waiting for the queue. */
  lemma StatusAnswers<W>(s: State<W>, id: nat, generation: nat, result: Terminal)
    requires Current(s.cache, generation) && id in s.cache.rows && s.cache.rows[id].result == Some(result)
    ensures var t := Next(Next(s, Status(id, generation)), Flush);
      (s.cache.rows[id].ticket, result) in t.answers && t.cache == s.cache && t.queue == s.queue && t.disk == s.cache
  {
  }

  /** A cell that was never opened takes nothing but an open. */
  lemma FreshTakesNothing<W>(origin: W, cleared: W, e: Event<W>)
    requires e.Execute? || e.Status? || e.Stop?
    ensures Next(Fresh(origin, cleared), e) == Fresh(origin, cleared)
  {
  }
}

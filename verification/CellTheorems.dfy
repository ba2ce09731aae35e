/** The guarantees of a cell over whole runs. */
module CellTheorems {
  import opened Common
  import opened Cell
  import opened CellSafety
  import opened CellJournal
  import opened CellAnswers

  // ------------------------------------------------------------------ Every run

  lemma OriginStays<W>(s: State<W>, e: Event<W>)
    ensures Next(s, e).origin == s.origin
  {
  }

  lemma AnswersGrow<W>(s: State<W>, e: Event<W>)
    ensures s.answers <= Next(s, e).answers
  {
  }

  lemma {:induction false} RunKeeps<W>(s: State<W>, events: seq<Event<W>>)
    requires Core(s) && Traced(s) && Settled(s)
    ensures Core(Run(s, events)) && Traced(Run(s, events)) && Settled(Run(s, events))
        && Run(s, events).origin == s.origin
    decreases |events|
  {
    if events == [] {
    } else {
      CoreNext(s, events[0]);
      TracedNext(s, events[0]);
      SettledNext(s, events[0]);
      OriginStays(s, events[0]);
      RunKeeps(Next(s, events[0]), events[1..]);
    }
  }

  /** In every run, crashes included, the stored workspace is the fold of the commits, which took
      effect one after another in the order their requests were accepted; the commits on disk are a
      prefix of them. */
  lemma Linearization<W>(origin: W, cleared: W, events: seq<Event<W>>)
    ensures var s := Run(Fresh(origin, cleared), events);
      && s.cache.ws == Fold(origin, s.cache.history) && Effective(origin, s.cache.history)
      && Increasing(s.cache.history)
      && s.disk.ws == Fold(origin, s.disk.history) && s.disk.history <= s.cache.history
  {
    FreshCore(origin, cleared);
    RunKeeps(Fresh(origin, cleared), events);
  }

  lemma JournalStaysSmall<W>(origin: W, cleared: W, events: seq<Event<W>>)
    ensures var s := Run(Fresh(origin, cleared), events); |s.cache.rows| <= 159 && |s.disk.rows| <= 159
  {
    FreshCore(origin, cleared);
    RunKeeps(Fresh(origin, cleared), events);
  }

  lemma OnlyAdvanceStarts<W>(s: State<W>, e: Event<W>)
    ensures e.Advance? || Next(s, e).starts == s.starts
  {
  }

  lemma StartStep<W>(s: State<W>, ok: bool)
    ensures Advanced(s, ok).starts != s.starts ==>
      && s.queue != [] && s.queue[0].Exec? && s.queue[0].phase.Waiting?
      && Advanced(s, ok).disk == s.cache
      && Advanced(s, ok).starts == s.starts + {(s.queue[0].id, s.queue[0].ticket)}
  {
  }

  lemma StartFacts<W>(s: State<W>)
    requires Traced(s) && s.queue != [] && s.queue[0].Exec? && s.queue[0].phase.Waiting?
    ensures Known(s.cache, s.queue[0].id, s.queue[0].ticket)
    ensures forall p | p in s.starts :: p.1 != s.queue[0].ticket && Known(s.cache, p.0, p.1)
  {
    assert JobTraced(s.queue[0], s.starts, s.cache);
  }

  /** A step starts at most one command, the head's. It never started before, its row is on disk by
      then, and every earlier start under its id belongs to a row the journal has forgotten for good. */
  lemma StartsOnce<W>(origin: W, cleared: W, events: seq<Event<W>>, e: Event<W>, id: nat, ticket: nat)
    requires var s := Run(Fresh(origin, cleared), events);
      (id, ticket) in Next(s, e).starts && (id, ticket) !in s.starts
    ensures var s, t := Run(Fresh(origin, cleared), events), Next(Run(Fresh(origin, cleared), events), e);
      && s.queue != [] && s.queue[0].Exec? && s.queue[0].id == id && s.queue[0].ticket == ticket
      && Known(t.disk, id, ticket)
      && (forall p | p in s.starts :: p.1 != ticket)
      && (id in t.disk.rows && t.disk.rows[id].ticket == ticket ==>
            forall p | p in s.starts && p.0 == id :: p.1 in t.disk.forgotten)
  {
    FreshCore(origin, cleared);
    RunKeeps(Fresh(origin, cleared), events);
    var s := Run(Fresh(origin, cleared), events);
    OnlyAdvanceStarts(s, e);
    StartStep(s, e.ok);
    StartFacts(s);
  }

  /** In every run, what a command's own promise resolves to is decided once, and says completed exactly
      when the command is among the commits, in memory and on disk. */
  lemma OwnResultIffCommitted<W>(origin: W, cleared: W, events: seq<Event<W>>, ticket: nat, result: Terminal)
    requires (ticket, result) in Run(Fresh(origin, cleared), events).results
    ensures var s := Run(Fresh(origin, cleared), events);
      && (result == Completed <==> ticket in Tickets(s.cache.history))
      && (result == Completed <==> ticket in Tickets(s.disk.history))
      && (forall other | (ticket, other) in s.results :: other == result)
  {
    FreshCore(origin, cleared);
    RunKeeps(Fresh(origin, cleared), events);
    var s := Run(Fresh(origin, cleared), events);
    assert ResultHolds((ticket, result), Tickets(s.cache.history));
    assert ResultHolds((ticket, result), Tickets(s.disk.history));
  }

  // ------------------------------------------------------------------ Calm runs

  lemma {:induction false} CalmRunKeeps<W>(s: State<W>, events: seq<Event<W>>)
    requires Core(s) && Orderly(s) && Numbered(s) && CalmRun(s, events)
    ensures Core(Run(s, events)) && Orderly(Run(s, events)) && Numbered(Run(s, events))
    ensures s.answers <= Run(s, events).answers
    decreases |events|
  {
    if events == [] {
    } else {
      CoreNext(s, events[0]);
      OrderlyNext(s, events[0]);
      NumberedNext(s, events[0]);
      AnswersGrow(s, events[0]);
      CalmRunKeeps(Next(s, events[0]), events[1..]);
    }
  }

  /** The commands among the commits are exactly those whose row says completed: a cancelled,
      timed-out, failed, interrupted or unfinished command contributes nothing, on disk or in memory. */
  lemma CompletedIffCommitted<W>(origin: W, cleared: W, events: seq<Event<W>>, id: nat)
    requires CalmRun(Fresh(origin, cleared), events)
    ensures var s := Run(Fresh(origin, cleared), events);
      && (id in s.cache.rows ==> (s.cache.rows[id].result == Some(Completed) <==>
                                  s.cache.rows[id].ticket in Tickets(s.cache.history)))
      && (id in s.disk.rows ==> (s.disk.rows[id].result == Some(Completed) <==>
                                 s.disk.rows[id].ticket in Tickets(s.disk.history)))
  {
    FreshCore(origin, cleared);
    CalmRunKeeps(Fresh(origin, cleared), events);
  }

  /** Once a result was given for a command, every later answer for it is that result, the journal
      keeps saying so after any crash, and it was completed exactly when the command is committed. */
  lemma AnswersAreFinal<W>(origin: W, cleared: W, before: seq<Event<W>>, after: seq<Event<W>>, ticket: nat,
                           result: Terminal)
    requires CalmRun(Fresh(origin, cleared), before) && CalmRun(Run(Fresh(origin, cleared), before), after)
    requires (ticket, result) in Run(Fresh(origin, cleared), before).answers
    ensures var s := Run(Run(Fresh(origin, cleared), before), after);
      && (forall other | (ticket, other) in s.answers :: other == result)
      && (forall id | id in s.cache.rows && s.cache.rows[id].ticket == ticket ::
          s.cache.rows[id].result == Some(result))
      && (forall id | id in s.disk.rows && s.disk.rows[id].ticket == ticket :: s.disk.rows[id].result == Some(result))
      && (result == Completed <==> ticket in Tickets(s.cache.history))
      && (result == Completed <==> ticket in Tickets(s.disk.history))
  {
    FreshCore(origin, cleared);
    CalmRunKeeps(Fresh(origin, cleared), before);
    CalmRunKeeps(Run(Fresh(origin, cleared), before), after);
    var s := Run(Run(Fresh(origin, cleared), before), after);
    assert AnswerHolds((ticket, result), s.cache.rows, Tickets(s.cache.history));
    assert AnswerHolds((ticket, result), s.disk.rows, Tickets(s.disk.history));
  }

  /** A command starts under the very row it was accepted with, so an id starts at most once while
      its row remains. */
  lemma StartsUnderItsRow<W>(origin: W, cleared: W, events: seq<Event<W>>, ok: bool)
    requires CalmRun(Fresh(origin, cleared), events)
    requires var s := Run(Fresh(origin, cleared), events); Next(s, Advance(ok)).starts != s.starts
    ensures var s := Run(Fresh(origin, cleared), events);
      && s.queue != [] && s.queue[0].Exec?
      && s.queue[0].id in s.cache.rows && s.cache.rows[s.queue[0].id].ticket == s.queue[0].ticket
      && (forall p | p in s.starts && p.0 == s.queue[0].id :: p.1 in s.cache.forgotten)
  {
    FreshCore(origin, cleared);
    CalmRunKeeps(Fresh(origin, cleared), events);
    RunKeeps(Fresh(origin, cleared), events);
    StartHasRow(Run(Fresh(origin, cleared), events), ok);
  }

  lemma StartHasRow<W>(s: State<W>, ok: bool)
    requires Orderly(s) && Traced(s) && Next(s, Advance(ok)).starts != s.starts
    ensures s.queue != [] && s.queue[0].Exec?
    ensures s.queue[0].id in s.cache.rows && s.cache.rows[s.queue[0].id].ticket == s.queue[0].ticket
    ensures forall p | p in s.starts && p.0 == s.queue[0].id :: p.1 in s.cache.forgotten
  {
    StartStep(s, ok);
    StartFacts(s);
    WaitingHasRow(s);
  }

  lemma WaitingHasRow<W>(s: State<W>)
    requires Orderly(s) && s.queue != [] && s.queue[0].Exec? && s.queue[0].phase.Waiting?
    ensures s.queue[0].id in s.cache.rows && s.cache.rows[s.queue[0].id].ticket == s.queue[0].ticket
  {
    assert JobMatches(s.queue[0], s.cache.rows, Tickets(s.cache.history));
  }
}

/**
 A command id stands for one request: repeating the request gives its stored result, and another request
 under the id is refused, in every run and across crashes, for as long as the journal has the row.
 */
module CellReplies {
  import opened Common
  import opened Cell
  import opened CellSafety
  import opened CellWorker

  /** The event put a row for the id into the journal: the request was accepted. */
  predicate Accepts<W>(s: State<W>, e: Event<W>) {
    e.Execute? && e.id !in s.cache.rows && e.id in Next(s, e).cache.rows
  }

  /** Whatever row has the ticket is the id's, with the fingerprint of the request that got the ticket. */
  predicate RowsAre<W>(d: Storage<W>, ticket: nat, id: nat, fingerprint: nat) {
    forall i | i in d.rows && d.rows[i].ticket == ticket :: i == id && d.rows[i].fingerprint == fingerprint
  }

  predicate Remembers<W>(s: State<W>, ticket: nat, id: nat, fingerprint: nat) {
    ticket < s.next && RowsAre(s.cache, ticket, id, fingerprint) && RowsAre(s.disk, ticket, id, fingerprint)
  }

  lemma AcceptedRemembers<W>(s: State<W>, e: Event<W>)
    requires Core(s) && Accepts(s, e)
    ensures Next(s, e).cache.rows[e.id].ticket == s.next && Remembers(Next(s, e), s.next, e.id, e.fingerprint)
  {
  }

  lemma ExecuteRemembers<W>(s: State<W>, e: Event<W>, ticket: nat, id: nat, fingerprint: nat)
    requires Remembers(s, ticket, id, fingerprint) && e.Execute?
    ensures Remembers(Next(s, e), ticket, id, fingerprint)
  {
  }

  /** Rows may go and may get their result, and nothing else happens to them. */
  predicate RowsOnlyEnd<W>(d: Storage<W>, e: Storage<W>) {
    forall i | i in e.rows ::
      i in d.rows && e.rows[i].ticket == d.rows[i].ticket && e.rows[i].fingerprint == d.rows[i].fingerprint
  }

  lemma ExecOnlyEnds<W>(s: State<W>, ok: bool)
    requires s.queue != [] && s.queue[0].Exec?
    ensures var t := ExecAdvanced(s, s.queue[0], ok);
      RowsOnlyEnd(s.cache, t.cache) && (t.disk == s.disk || t.disk == s.cache || t.disk == t.cache) && t.next == s.next
  {
    match s.queue[0].phase
    case Waiting =>
    case Running(_) =>
    case Computed(_) =>
    case Finished(_) =>
  }

  lemma AdvanceOnlyEnds<W>(s: State<W>, ok: bool)
    ensures var t := Advanced(s, ok);
      RowsOnlyEnd(s.cache, t.cache) && (t.disk == s.disk || t.disk == s.cache || t.disk == t.cache) && t.next == s.next
  {
    if s.queue != [] && s.queue[0].Exec? { ExecOnlyEnds(s, ok); }
  }

  lemma AdvanceRemembers<W>(s: State<W>, ok: bool, ticket: nat, id: nat, fingerprint: nat)
    requires Remembers(s, ticket, id, fingerprint)
    ensures Remembers(Advanced(s, ok), ticket, id, fingerprint)
  {
    AdvanceOnlyEnds(s, ok);
  }

  lemma NextRemembers<W>(s: State<W>, e: Event<W>, ticket: nat, id: nat, fingerprint: nat)
    requires Remembers(s, ticket, id, fingerprint)
    ensures Remembers(Next(s, e), ticket, id, fingerprint)
  {
    if e.Execute? { ExecuteRemembers(s, e, ticket, id, fingerprint); }
    if e.Advance? { AdvanceRemembers(s, e.ok, ticket, id, fingerprint); }
  }

  lemma {:induction false} RunRemembers<W>(s: State<W>, events: seq<Event<W>>, ticket: nat, id: nat, fingerprint: nat)
    requires Remembers(s, ticket, id, fingerprint)
    ensures Remembers(Run(s, events), ticket, id, fingerprint)
    decreases |events|
  {
    if events != [] {
      NextRemembers(s, events[0], ticket, id, fingerprint);
      RunRemembers(Next(s, events[0]), events[1..], ticket, id, fingerprint);
    }
  }

  /** The state in which the row of a request that was accepted long ago is still there. */
  predicate StillThere<W>(s: State<W>, e: Event<W>, after: seq<Event<W>>)
    requires Accepts(s, e)
  {
    var u := Run(Next(s, e), after);
    e.id in u.cache.rows && u.cache.rows[e.id].ticket == s.next
  }

  /** Other input under the id is refused and changes nothing, in every run after the id was accepted and
      while its row is there. */
  lemma OtherInputIsRefused<W>(origin: W, cleared: W, before: seq<Event<W>>, e: Event<W>, after: seq<Event<W>>,
                               fingerprint: nat, effect: Effect<W>, generation: nat, cancel: bool)
    requires var s := Run(Fresh(origin, cleared), before); Accepts(s, e) && StillThere(s, e, after)
    requires fingerprint != e.fingerprint
    ensures var u := Run(Next(Run(Fresh(origin, cleared), before), e), after);
      && Next(u, Execute(e.id, fingerprint, effect, generation, cancel)) == u
      && (Current(u.cache, generation) ==> ExecuteReply(u, e.id, fingerprint, generation, cancel) == Conflict)
  {
    RowsKept(origin, cleared, before, e, after);
  }

  /** The same input under the id is answered with the stored result of that very request, and changes
      nothing else; there is no second execution. */
  lemma SameInputIsRepeated<W>(origin: W, cleared: W, before: seq<Event<W>>, e: Event<W>, after: seq<Event<W>>,
                               effect: Effect<W>, generation: nat, cancel: bool, result: Terminal)
    requires var s := Run(Fresh(origin, cleared), before); Accepts(s, e) && StillThere(s, e, after)
    requires var u := Run(Next(Run(Fresh(origin, cleared), before), e), after);
      u.cache.rows[e.id].result == Some(result) && Current(u.cache, generation)
    ensures var s := Run(Fresh(origin, cleared), before);
      var u := Run(Next(s, e), after);
      && Next(u, Execute(e.id, e.fingerprint, effect, generation, cancel)) == u.(held := u.held + {(s.next, result)})
      && ExecuteReply(u, e.id, e.fingerprint, generation, cancel) == Done(result)
  {
    RowsKept(origin, cleared, before, e, after);
  }

  /** While the request is still running or queued, the same input joins it; a cancel aborts that execution. */
  lemma SameInputJoins<W>(origin: W, cleared: W, before: seq<Event<W>>, e: Event<W>, after: seq<Event<W>>,
                          effect: Effect<W>, generation: nat, cancel: bool)
    requires var s := Run(Fresh(origin, cleared), before); Accepts(s, e) && StillThere(s, e, after)
    requires var u := Run(Next(Run(Fresh(origin, cleared), before), e), after);
      u.cache.rows[e.id].result.None? && Current(u.cache, generation)
    ensures var u := Run(Next(Run(Fresh(origin, cleared), before), e), after);
      var v := Next(u, Execute(e.id, e.fingerprint, effect, generation, cancel));
      && v == u.(aborted := v.aborted)
      && v.aborted == u.aborted + (if cancel && e.id in u.active then {u.active[e.id]} else {})
      && ExecuteReply(u, e.id, e.fingerprint, generation, cancel) == if e.id in u.active then Later else NoExecution
  {
    RowsKept(origin, cleared, before, e, after);
  }

  lemma RowsKept<W>(origin: W, cleared: W, before: seq<Event<W>>, e: Event<W>, after: seq<Event<W>>)
    requires var s := Run(Fresh(origin, cleared), before); Accepts(s, e) && StillThere(s, e, after)
    ensures var u := Run(Next(Run(Fresh(origin, cleared), before), e), after);
      e.id in u.cache.rows && u.cache.rows[e.id].fingerprint == e.fingerprint
      && u.cache.rows[e.id].ticket == Run(Fresh(origin, cleared), before).next
  {
    var s := Run(Fresh(origin, cleared), before);
    FreshCore(origin, cleared);
    RunKeepsCore(Fresh(origin, cleared), before);
    AcceptedRemembers(s, e);
    RunRemembers(Next(s, e), after, s.next, e.id, e.fingerprint);
  }
}

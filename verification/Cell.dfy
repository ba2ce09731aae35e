/**
 One durable cell: a workspace and a command journal in storage that may lose its unsynced tail in
 a crash, and in memory a queue of mutations, the running command and its cancellation flag.

 A command or a file operation is an arbitrary partial function on workspaces. `ticket` numbers
 requests in the order they were accepted; it is never reused, not even after a crash.
 */
module Cell {
  import opened Common

  const PENDING_LIMIT: nat := 32
  const JOURNAL_COUNT: nat := 128
  const JOURNAL_AGE_MS: nat := 86_400_000

  type Effect<!W> = W -> Option<W>

  datatype Terminal = Completed | Cancelled | TimedOut | Failed | Interrupted

  datatype Row = Row(ticket: nat, fingerprint: nat, created: int, result: Option<Terminal>)

  /** An effect that reached the stored workspace; `command` names the journal id it ran for. */
  datatype Commit<!W> = Commit(ticket: nat, command: Option<nat>, effect: Effect<W>)

  /** `history` and `forgotten` are bookkeeping for the proofs: the commits behind `ws`, and the
      tickets whose rows were pruned or deleted. */
  datatype Storage<!W> = Storage(
    ws: W, generation: Option<nat>, deleted: bool, stopped: bool, rows: map<nat, Row>,
    history: seq<Commit<W>>, forgotten: set<nat>)

  datatype Phase<!W> = Waiting | Running(base: W) | Computed(next: W) | Finished(result: Terminal)

  datatype Job<!W> =
    | Exec(ticket: nat, id: nat, effect: Effect<W>, phase: Phase<W>)
    | Mutate(ticket: nat, generation: nat, effect: Effect<W>, phase: Phase<W>)
    | Open(ticket: nat, expected: Option<nat>, initial: W)
    | Barrier(ticket: nat, generation: nat, delete: bool)

  /** `disk` is what a crash leaves behind, `cache` what the running cell sees. A reply is `held` by the
      platform until everything written before it is on disk; then it is among the `answers`. `starts`
      are the commands begun, `results` what their own promises resolved to. */
  datatype State<!W> = State(
    origin: W, cleared: W, now: int, disk: Storage<W>, cache: Storage<W>, queue: seq<Job<W>>, active: map<nat, nat>,
    aborted: set<nat>, timedOut: set<nat>, stopping: bool, next: nat,
    starts: set<(nat, nat)>, results: set<(nat, Terminal)>, held: set<(nat, Terminal)>, answers: set<(nat, Terminal)>)

  datatype Event<!W> =
    | Tick(now: int)
    | Flush
    | Crash
    | Execute(id: nat, fingerprint: nat, effect: Effect<W>, generation: nat, cancel: bool)
    | Status(id: nat, generation: nat)
    | File(generation: nat, effect: Effect<W>)
    | OpenCell(expected: Option<nat>, initial: W)
    | Stop(generation: nat, delete: bool)
    | Timeout
    | Advance(ok: bool)

  // ------------------------------------------------------------------ Storage

  function Applied<W>(c: Commit<W>, w: W): W {
    if c.effect(w).Some? then c.effect(w).value else w
  }

  function Fold<W>(origin: W, history: seq<Commit<W>>): W {
    if history == [] then origin else Applied(history[|history| - 1], Fold(origin, history[..|history| - 1]))
  }

  predicate Current<W>(d: Storage<W>, generation: nat) {
    d.generation == Some(generation) && !d.deleted
  }

  /** UPDATE ... WHERE id: it finds whatever row has the id now, if any. */
  function WithResult<W>(d: Storage<W>, id: nat, result: Terminal): Storage<W> {
    if id in d.rows then d.(rows := d.rows[id := d.rows[id].(result := Some(result))]) else d
  }

  predicate Newer(a: Row, b: Row) {
    a.created > b.created || (a.created == b.created && a.ticket > b.ticket)
  }

  /** The finished rows that `ORDER BY created DESC, rowid DESC` lists before the given one; rowids
      grow with tickets. */
  function Ahead(rows: map<nat, Row>, id: nat): set<nat>
    requires id in rows
  {
    set j | j in rows && rows[j].result.Some? && Newer(rows[j], rows[id])
  }

  predicate Kept(rows: map<nat, Row>, now: int, id: nat)
    requires id in rows
  {
    rows[id].result.Some? ==> now - JOURNAL_AGE_MS <= rows[id].created && |Ahead(rows, id)| < JOURNAL_COUNT - 1
  }

  function Pruned<W>(d: Storage<W>, now: int): Storage<W> {
    d.(rows := map id | id in d.rows && Kept(d.rows, now, id) :: d.rows[id],
       forgotten := d.forgotten + (set id | id in d.rows && !Kept(d.rows, now, id) :: d.rows[id].ticket))
  }

  /** What the constructor makes of the stored journal. */
  function Recovered<W>(d: Storage<W>): Storage<W> {
    d.(rows := map id | id in d.rows ::
        if d.rows[id].result.None? then d.rows[id].(result := Some(Interrupted)) else d.rows[id])
  }

  function Erased<W>(d: Storage<W>, ticket: nat, cleared: W): Storage<W> {
    d.(ws := cleared, deleted := true, rows := map[],
       history := d.history + [Commit(ticket, None, (w: W) => Some(cleared))],
       forgotten := d.forgotten + (set id | id in d.rows :: d.rows[id].ticket))
  }

  function Committed<W>(d: Storage<W>, ticket: nat, command: Option<nat>, effect: Effect<W>, next: W): Storage<W> {
    d.(ws := next, history := d.history + [Commit(ticket, command, effect)])
  }

  function Created<W>(d: Storage<W>, ticket: nat, initial: W): Storage<W> {
    d.(ws := initial, generation := Some(ticket), deleted := false,
       history := d.history + [Commit(ticket, None, (w: W) => Some(initial))])
  }

  // ------------------------------------------------------------------ Requests

  predicate Busy<W>(s: State<W>) {
    |s.queue| >= PENDING_LIMIT
  }

  predicate Mutable<W>(s: State<W>, generation: nat) {
    Current(s.cache, generation) && !s.stopping && !s.cache.stopped
  }

  function Replied<W>(s: State<W>, ticket: nat, result: Terminal): State<W> {
    s.(held := s.held + {(ticket, result)})
  }

  /** Everything is on disk: the replies held so far leave the cell. */
  function Flushed<W>(s: State<W>): State<W> {
    s.(disk := s.cache, held := {}, answers := s.answers + s.held)
  }

  function Enqueued<W>(s: State<W>, job: Job<W>): State<W> {
    s.(queue := s.queue + [job], next := s.next + 1)
  }

  function Journaled<W>(s: State<W>, id: nat, fingerprint: nat): Storage<W> {
    var pruned := Pruned(s.cache, s.now);
    pruned.(rows := pruned.rows[id := Row(s.next, fingerprint, s.now, None)])
  }

  /** The part of `execute` that runs before its first await. */
  function Executed<W>(s: State<W>, id: nat, fingerprint: nat, effect: Effect<W>, generation: nat,
                       cancel: bool): State<W> {
    if !Current(s.cache, generation) then s
    else if id in s.cache.rows then
      var row := s.cache.rows[id];
      if row.fingerprint != fingerprint then s
      else if row.result.Some? then Replied(s, row.ticket, row.result.value)
      else if cancel && id in s.active then s.(aborted := s.aborted + {s.active[id]})
      else s
    else if !Mutable(s, generation) || Busy(s) then s
    else if cancel then
      Replied(s.(cache := WithResult(Journaled(s, id, fingerprint), id, Cancelled), next := s.next + 1),
              s.next, Cancelled)
    else
      Enqueued(s.(cache := Journaled(s, id, fingerprint), active := s.active[id := s.next]),
               Exec(s.next, id, effect, Waiting))
  }

  function Stopped<W>(s: State<W>, generation: nat, delete: bool): State<W> {
    if !Current(s.cache, generation) then s
    else
      Enqueued(s.(stopping := true, cache := s.cache.(stopped := true), aborted := s.aborted + s.active.Values),
               Barrier(s.next, generation, delete))
  }

  // ------------------------------------------------------------------ The head of the queue

  /** How an aborted or failed run is classified. */
  function Failure<W>(s: State<W>, ticket: nat): Terminal {
    if ticket in s.timedOut then TimedOut else if ticket in s.aborted then Cancelled else Failed
  }

  function WithHead<W>(s: State<W>, job: Job<W>): State<W>
    requires s.queue != []
  {
    s.(queue := [job] + s.queue[1..])
  }

  function Popped<W>(s: State<W>): State<W>
    requires s.queue != []
  {
    s.(queue := s.queue[1..])
  }

  function InPhase<W>(job: Job<W>, phase: Phase<W>): Job<W>
    requires job.Exec? || job.Mutate?
  {
    if job.Exec? then Exec(job.ticket, job.id, job.effect, phase)
    else Mutate(job.ticket, job.generation, job.effect, phase)
  }

  /** Ends the running command with `result` in memory and in the journal. */
  function Ended<W>(s: State<W>, job: Job<W>, result: Terminal): State<W>
    requires s.queue != [] && job.Exec?
  {
    WithHead(s.(cache := WithResult(s.cache, job.id, result)), InPhase(job, Finished(result)))
  }

  /** One awaited stretch of a queued command. `ok` stands for the interpreter's own success. */
  function ExecAdvanced<W>(s: State<W>, job: Job<W>, ok: bool): State<W>
    requires s.queue != [] && job.Exec?
  {
    match job.phase
    case Waiting =>
      var synced := Flushed(s);
      if job.ticket in s.aborted then Ended(synced, job, Failure(s, job.ticket))
      else WithHead(synced.(starts := s.starts + {(job.id, job.ticket)}), InPhase(job, Running(s.cache.ws)))
    case Running(base) =>
      if !ok || job.ticket in s.aborted || job.effect(base).None? then Ended(s, job, Failure(s, job.ticket))
      else WithHead(s, InPhase(job, Computed(job.effect(base).value)))
    case Computed(next) =>
      if job.ticket in s.aborted then Ended(s, job, Failure(s, job.ticket))
      else Ended(s.(cache := Committed(s.cache, job.ticket, Some(job.id), job.effect, next)), job, Completed)
    case Finished(result) =>
      var ended := Popped(s).(active := s.active - {job.id}, results := s.results + {(job.ticket, result)});
      Flushed(Replied(ended, job.ticket, result))
  }

  function MutateAdvanced<W>(s: State<W>, job: Job<W>): State<W>
    requires s.queue != [] && job.Mutate?
  {
    match job.phase
    case Waiting =>
      if Mutable(s, job.generation) then WithHead(s, InPhase(job, Running(s.cache.ws))) else Popped(s)
    case Running(base) =>
      if job.effect(base).Some? then WithHead(s, InPhase(job, Computed(job.effect(base).value))) else Popped(s)
    case Computed(next) => Popped(s.(cache := Committed(s.cache, job.ticket, None, job.effect, next)))
    case Finished(_) => Popped(s)
  }

  function OpenAdvanced<W>(s: State<W>, job: Job<W>): State<W>
    requires s.queue != [] && job.Open?
  {
    if job.expected.Some? && !Current(s.cache, job.expected.value) then Popped(s)
    else
      var cache := if s.cache.generation.None? || s.cache.deleted then Created(s.cache, job.ticket, job.initial)
        else s.cache;
      Popped(s.(cache := cache.(stopped := false), stopping := false))
  }

  function BarrierAdvanced<W>(s: State<W>, job: Job<W>): State<W>
    requires s.queue != [] && job.Barrier?
  {
    if !Current(s.cache, job.generation) then Popped(s)
    else
      var cache := if job.delete then Erased(s.cache, job.ticket, s.cleared) else s.cache;
      Flushed(Popped(s.(cache := cache)))
  }

  function Advanced<W>(s: State<W>, ok: bool): State<W> {
    if s.queue == [] then s
    else match s.queue[0]
         case Exec(_, _, _, _) => ExecAdvanced(s, s.queue[0], ok)
         case Mutate(_, _, _, _) => MutateAdvanced(s, s.queue[0])
         case Open(_, _, _) => OpenAdvanced(s, s.queue[0])
         case Barrier(_, _, _) => BarrierAdvanced(s, s.queue[0])
  }

  function Crashed<W>(s: State<W>): State<W> {
    s.(cache := Recovered(s.disk), queue := [], active := map[], aborted := {}, timedOut := {}, stopping := false,
       held := {})
  }

  function Next<W>(s: State<W>, e: Event<W>): State<W> {
    match e
    case Tick(now) => s.(now := now)
    case Flush => Flushed(s)
    case Crash => Crashed(s)
    case Execute(id, fingerprint, effect, generation, cancel) =>
      Executed(s, id, fingerprint, effect, generation, cancel)
    case Status(id, generation) =>
      if Current(s.cache, generation) && id in s.cache.rows && s.cache.rows[id].result.Some?
      then Replied(s, s.cache.rows[id].ticket, s.cache.rows[id].result.value) else s
    case File(generation, effect) => if Busy(s) then s else Enqueued(s, Mutate(s.next, generation, effect, Waiting))
    case OpenCell(expected, initial) => if Busy(s) then s else Enqueued(s, Open(s.next, expected, initial))
    case Stop(generation, delete) => Stopped(s, generation, delete)
    case Timeout =>
      if s.queue != [] && s.queue[0].Exec? && (s.queue[0].phase.Running? || s.queue[0].phase.Computed?)
      then s.(timedOut := s.timedOut + {s.queue[0].ticket}, aborted := s.aborted + {s.queue[0].ticket}) else s
    case Advance(ok) => Advanced(s, ok)
  }

  function Run<W>(s: State<W>, events: seq<Event<W>>): State<W>
    decreases |events|
  {
    if events == [] then s else Run(Next(s, events[0]), events[1..])
  }

  function Fresh<W>(origin: W, cleared: W): State<W> {
    var empty := Storage(origin, None, false, false, map[], [], {});
    State(origin, cleared, 0, empty, empty, [], map[], {}, {}, false, 0, {}, {}, {}, {})
  }
}

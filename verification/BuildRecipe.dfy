/**
 The recipe log of a container build as a step system: one task at a time, a container that may be
 replaced under it, and a controller that may restart. `completed` is what really happened in the
 current container since its start; `recipe` is what the log says.
 */
module BuildRecipe {
  import opened Common

  /** A command with the exit code it ended with, or a file operation. */
  datatype RecipeStep = Execute(command: nat, exitCode: int) | FileOp(operation: nat)

  /** The serialized task in flight. A command has ended once its exit code is known, a file operation
      once it is applied. */
  datatype Task =
    | Idle
    | Command(command: nat, exitCode: Option<int>, journaled: bool)
    | File(operation: nat, applied: bool)
    | Opening

  /** An accepted command that has not started, and whether its journal row is still there. */
  datatype Queued = Queued(command: nat, journaled: bool)

  datatype State = State(
    recipe: seq<RecipeStep>, failed: bool, ready: bool, running: bool, stopping: bool, incarnation: nat,
    completed: seq<RecipeStep>, task: Task, waiting: seq<Queued>)

  /** `fits` says whether the recipe with the step stays within its size limit. */
  datatype Event =
    | AcceptCommand(command: nat)
    | StartCommand
    | CommandEnds(exitCode: int)
    | RecordCommand(fits: bool)
    | CommandFails
    | StartFile(operation: nat)
    | FileApplied
    | RecordFile(fits: bool)
    | FileFails
    | ContainerStarts
    | ContainerDies
    | ControllerRestarts
    | StopRequested
    | Destroy
    | OpenRequested
    | OpenInitialized
    | OpenFails

  function Fresh(): State {
    State([], false, false, false, false, 0, [], Idle, [])
  }

  /** The log takes the step if it fits; otherwise the build is marked failed. */
  function Append(s: State, step: RecipeStep, fits: bool): State {
    if fits then s.(recipe := s.recipe + [step], task := Idle) else s.(failed := true, task := Idle)
  }

  predicate Checked(s: State) {
    s.ready && s.running && !s.stopping
  }

  /** A journal row says that a command has not ended. */
  predicate UnfinishedRow(s: State) {
    (s.task.Command? && s.task.journaled) || exists q :: q in s.waiting && q.journaled
  }

  function RowsDeleted(waiting: seq<Queued>): (w: seq<Queued>)
    ensures |w| == |waiting| && forall q | q in w :: !q.journaled
  {
    seq(|waiting|, i requires 0 <= i < |waiting| => waiting[i].(journaled := false))
  }

  function Next(s: State, e: Event): State {
    match e
    case AcceptCommand(command) => if Checked(s) then s.(waiting := s.waiting + [Queued(command, true)]) else s
    case StartCommand =>
      if s.task.Idle? && s.waiting != []
      then s.(task := Command(s.waiting[0].command, None, s.waiting[0].journaled), waiting := s.waiting[1..]) else s
    case CommandEnds(exitCode) =>
      if s.task.Command? && s.task.exitCode.None? && s.running
      then s.(task := s.task.(exitCode := Some(exitCode)),
              completed := s.completed + [Execute(s.task.command, exitCode)])
      else s
    case RecordCommand(fits) =>
      if s.task.Command? && s.task.exitCode.Some? then Append(s, Execute(s.task.command, s.task.exitCode.value), fits)
        else s
    case CommandFails => if s.task.Command? then s.(failed := true, task := Idle) else s
    case StartFile(operation) => if s.task.Idle? && Checked(s) then s.(task := File(operation, false)) else s
    case FileApplied =>
      if s.task.File? && !s.task.applied && s.running
      then s.(task := File(s.task.operation, true), completed := s.completed + [FileOp(s.task.operation)])
      else s
    case RecordFile(fits) =>
      if s.task.File? && s.task.applied then Append(s, FileOp(s.task.operation), fits) else s
    case FileFails => if s.task.File? then s.(failed := true, task := Idle) else s
    case ContainerStarts => s.(running := true, ready := false, incarnation := s.incarnation + 1, completed := [])
    case ContainerDies => s.(running := false)
    case ControllerRestarts => s.(task := Idle, waiting := [], stopping := false,
                                  failed := s.failed || UnfinishedRow(s))
    case StopRequested => s.(stopping := true)
    case Destroy => if s.task.Idle? then s.(running := false, ready := false) else s
    case OpenRequested =>
      if !s.task.Idle? then s
      else if s.running && s.ready then s.(stopping := false)
      else s.(stopping := false, task := Opening)
    case OpenInitialized =>
      if s.task.Opening? && s.running
      then s.(recipe := [], failed := false, ready := true, task := Idle, waiting := RowsDeleted(s.waiting)) else s
    case OpenFails => if s.task.Opening? then s.(ready := false, running := false, task := Idle) else s
  }

  function Run(s: State, events: seq<Event>): State
    decreases |events|
  {
    if events == [] then s else Run(Next(s, events[0]), events[1..])
  }

  /** What publishing reads: nothing unless the build is checked and not marked failed. */
  function Published(s: State): Option<seq<RecipeStep>> {
    if s.task.Idle? && Checked(s) && !s.failed then Some(s.recipe) else None
  }

  // ------------------------------------------------------------------ In every run

  /** `a` can be had from `b` by leaving out steps. */
  predicate Subsequence(a: seq<RecipeStep>, b: seq<RecipeStep>) {
    a == [] || (b != []
      && ((a[|a| - 1] == b[|b| - 1] && Subsequence(a[..|a| - 1], b[..|b| - 1])) || Subsequence(a, b[..|b| - 1])))
  }

  lemma SubsequenceGrows(a: seq<RecipeStep>, b: seq<RecipeStep>, step: RecipeStep)
    requires Subsequence(a, b)
    ensures Subsequence(a, b + [step]) && Subsequence(a + [step], b + [step])
  {
    assert (b + [step])[..|b|] == b && (a + [step])[..|a|] == a;
  }

  /** The step that is done but not yet in the log. */
  function Pending(s: State): seq<RecipeStep> {
    if s.task.Command? && s.task.exitCode.Some? then [Execute(s.task.command, s.task.exitCode.value)]
    else if s.task.File? && s.task.applied then [FileOp(s.task.operation)]
    else []
  }

  predicate Ordered(s: State) {
    s.ready ==>
      if Pending(s) == [] then Subsequence(s.recipe, s.completed)
      else s.completed != [] && s.completed[|s.completed| - 1] == Pending(s)[0]
           && Subsequence(s.recipe, s.completed[..|s.completed| - 1])
  }

  lemma LastLogged(a: seq<RecipeStep>, b: seq<RecipeStep>)
    requires b != [] && Subsequence(a, b[..|b| - 1])
    ensures Subsequence(a, b) && Subsequence(a + [b[|b| - 1]], b)
  {
    SubsequenceGrows(a, b[..|b| - 1], b[|b| - 1]);
    assert b == b[..|b| - 1] + [b[|b| - 1]];
  }

  lemma LogKeepsOrder(s: State, fits: bool)
    requires Ordered(s) && Pending(s) != []
    ensures Ordered(Append(s, Pending(s)[0], fits))
  {
    if s.ready { LastLogged(s.recipe, s.completed); }
  }

  lemma DropKeepsOrder(s: State)
    requires Ordered(s)
    ensures s.ready ==> Subsequence(s.recipe, s.completed)
  {
    if s.ready && Pending(s) != [] { LastLogged(s.recipe, s.completed); }
  }

  lemma OrderedNext(s: State, e: Event)
    requires Ordered(s)
    ensures Ordered(Next(s, e))
  {
    DropKeepsOrder(s);
    if (e.RecordCommand? || e.RecordFile?) && Pending(s) != [] { LogKeepsOrder(s, e.fits); }
    if e.CommandEnds? || e.FileApplied? { assert Next(s, e).completed[..|s.completed|] == s.completed; }
  }

  lemma {:induction false} OrderedRun(s: State, events: seq<Event>)
    requires Ordered(s)
    ensures Ordered(Run(s, events))
    decreases |events|
  {
    if events == [] {
    } else {
      OrderedNext(s, events[0]);
      OrderedRun(Next(s, events[0]), events[1..]);
    }
  }

  /** Whatever restarts and replacements happen, a published recipe lists, in order, steps that
      completed in the current container since its start. */
  lemma PublishedStepsCompleted(events: seq<Event>)
    requires Published(Run(Fresh(), events)).Some?
    ensures Subsequence(Published(Run(Fresh(), events)).value, Run(Fresh(), events).completed)
  {
    OrderedRun(Fresh(), events);
  }

  // ------------------------------------------------------------------ In undisturbed runs

  /** A step is under way that has not happened yet. */
  predicate UnderWay(s: State) {
    (s.task.Command? && s.task.exitCode.None?) || (s.task.File? && !s.task.applied)
  }

  /** The controller does not restart between a step and its log entry, unless a journal row or an earlier
      failure marks the build failed; the container is not replaced while a step is under way; and no
      command starts in a running container that has not been opened. */
  predicate Undisturbed(s: State, e: Event) {
    match e
    case ControllerRestarts => Pending(s) != [] && s.ready && s.running ==> s.failed || UnfinishedRow(s)
    case ContainerStarts => !UnderWay(s)
    case StartCommand => s.task.Idle? && s.waiting != [] && s.running ==> s.ready
    case _ => true
  }

  predicate UndisturbedRun(s: State, events: seq<Event>)
    decreases |events|
  {
    events == [] || (Undisturbed(s, events[0]) && UndisturbedRun(Next(s, events[0]), events[1..]))
  }

  ghost predicate Faithful(s: State) {
    && (s.ready && s.running && !s.failed ==> s.completed == s.recipe + Pending(s))
    && (!s.ready && s.running ==> s.completed == [])
    && (UnderWay(s) && s.running ==> s.ready)
    && (s.task.Opening? ==> !(s.running && s.ready))
  }

  lemma FaithfulNext(s: State, e: Event)
    requires Faithful(s) && Undisturbed(s, e)
    ensures Faithful(Next(s, e))
  {
  }

  lemma {:induction false} FaithfulRun(s: State, events: seq<Event>)
    requires Faithful(s) && UndisturbedRun(s, events)
    ensures Faithful(Run(s, events))
    decreases |events|
  {
    if events == [] {
    } else {
      FaithfulNext(s, events[0]);
      FaithfulRun(Next(s, events[0]), events[1..]);
    }
  }

  /** What is published now is exactly what completed in the container. */
  predicate Exact(s: State) {
    Published(s).Some? ==> Published(s).value == s.completed
  }

  /** In such runs a published recipe is exactly what completed in the container. */
  lemma PublishedIsFaithful(events: seq<Event>)
    requires UndisturbedRun(Fresh(), events)
    ensures Exact(Run(Fresh(), events))
  {
    FaithfulRun(Fresh(), events);
    FaithfulIsExact(Run(Fresh(), events));
  }

  lemma FaithfulIsExact(s: State)
    requires Faithful(s)
    ensures Exact(s)
  {
    assert s.recipe + [] == s.recipe;
  }

  // ------------------------------------------------------------------ Exactly when

  /** However the build goes on undisturbed, nothing but what completed is published. */
  ghost predicate StaysExact(s: State) {
    forall events :: UndisturbedRun(s, events) ==> Exact(Run(s, events))
  }

  /** An event keeps the promise for the rest of the build exactly when it is no disturbance. */
  lemma ExactIffUndisturbed(s: State, e: Event)
    requires Faithful(s)
    ensures StaysExact(Next(s, e)) <==> Undisturbed(s, e)
  {
    if Undisturbed(s, e) {
      forall events | UndisturbedRun(Next(s, e), events) ensures Exact(Run(Next(s, e), events)) {
        FaithfulNext(s, e);
        FaithfulRun(Next(s, e), events);
        FaithfulIsExact(Run(Next(s, e), events));
      }
    } else if e.ControllerRestarts? {
      RestartPublishesShort(s);
      assert Run(Next(s, e), []) == Next(s, e) && UndisturbedRun(Next(s, e), []);
    } else {
      var events := UnopenedPublishesShort(Next(s, e));
    }
  }

  /** A restart between a step and its log entry: the log as it is may be published at once. */
  lemma RestartPublishesShort(s: State)
    requires Faithful(s) && !Undisturbed(s, ControllerRestarts)
    ensures var t := Next(s, ControllerRestarts);
      Published(t) == Some(s.recipe) && t.completed == s.recipe + Pending(s) && |Pending(s)| == 1
  {
  }

  /** A step under way in a container that was not opened: once it ended, opening empties the log. */
  lemma UnopenedPublishesShort(s: State) returns (events: seq<Event>)
    requires UnderWay(s) && s.running && !s.ready
    ensures UndisturbedRun(s, events) && !Exact(Run(s, events))
  {
    var ends, recorded := if s.task.Command? then CommandEnds(0) else FileApplied,
      if s.task.Command? then RecordCommand(true) else RecordFile(true);
    events := [ends, recorded, OpenRequested, OpenInitialized];
    var a := Next(s, ends);
    var b := Next(a, recorded);
    var c := Next(b, OpenRequested);
    assert events[1..] == [recorded, OpenRequested, OpenInitialized];
    assert events[1..][1..] == [OpenRequested, OpenInitialized];
    assert [OpenRequested, OpenInitialized][1..] == [OpenInitialized];
    assert [OpenInitialized][1..] == [];
    assert UndisturbedRun(c, [OpenInitialized]) && UndisturbedRun(b, [OpenRequested, OpenInitialized]);
    assert Run(b, [OpenRequested, OpenInitialized]) == Run(c, [OpenInitialized]) == Next(c, OpenInitialized);
    assert |a.completed| == |s.completed| + 1;
  }

  // ------------------------------------------------------------------ What a disturbance costs

  /** A restart of the controller loses a step exactly when one is done but not yet logged and no journal
      row of an unfinished command marks the build failed. */
  lemma RestartLosesStep(s: State)
    requires Faithful(s) && s.ready && s.running && !s.failed
    ensures Faithful(Next(s, ControllerRestarts)) <==> Pending(s) == [] || UnfinishedRow(s)
  {
    if Pending(s) != [] {
      assert |s.completed| == |s.recipe| + 1;
    }
  }

  /** Reopening starts a faithful log exactly when nothing has happened in the running container yet. */
  lemma OpenIsFaithful(s: State)
    requires s.task.Opening? && s.running
    ensures Faithful(Next(s, OpenInitialized)) <==> s.completed == []
  {
    assert s.completed == [] + [] <==> s.completed == [];
  }

  /** The controller restarts while a file is being written; the file is there, the log lacks it, and
      the build is published all the same. */
  lemma RestartPublishesLess()
    ensures var s := Run(Fresh(), [OpenRequested, ContainerStarts, OpenInitialized, StartFile(1), FileApplied,
                                   ControllerRestarts]);
      Published(s) == Some([]) && s.completed == [FileOp(1)]
  {
    var e := [OpenRequested, ContainerStarts, OpenInitialized, StartFile(1), FileApplied, ControllerRestarts];
    RunSix(Fresh(), e);
  }

  /** The container is replaced while a file is being written; reopening empties the log but not the
      new container. */
  lemma ReplacementPublishesLess()
    ensures var written := Run(Fresh(), [OpenRequested, ContainerStarts, OpenInitialized, StartFile(1),
                                         ContainerStarts, FileApplied]);
      var s := Next(Next(Next(written, RecordFile(true)), OpenRequested), OpenInitialized);
      Published(s) == Some([]) && s.completed == [FileOp(1)]
  {
    ReplacedInWrite();
  }

  lemma ReplacedInWrite()
    ensures var s := Run(Fresh(), [OpenRequested, ContainerStarts, OpenInitialized, StartFile(1), ContainerStarts,
                                   FileApplied]);
      s.task == File(1, true) && s.running && !s.ready && s.completed == [FileOp(1)]
  {
    var e := [OpenRequested, ContainerStarts, OpenInitialized, StartFile(1), ContainerStarts, FileApplied];
    RunSix(Fresh(), e);
  }

  // ------------------------------------------------------------------ Replaying a recipe

  /** What the container holds when `k` steps were replayed, where `replaced(j)` says that it was replaced
      after step `j` and before the next. */
  function Held(before: seq<RecipeStep>, steps: seq<RecipeStep>, replaced: nat -> bool, k: nat): (held: seq<RecipeStep>)
    requires k <= |steps|
    ensures |held| <= |before| + k
  {
    if replaced(k) then []
    else if k == 0 then before
    else Held(before, steps, replaced, k - 1) + [steps[k - 1]]
  }

  /** A session that becomes ready holds the whole recipe, on top of what was there, exactly when the
      container was never replaced while it held anything. */
  lemma {:induction false} ReplayHoldsAll(before: seq<RecipeStep>, steps: seq<RecipeStep>, replaced: nat -> bool,
                                          k: nat)
    requires k <= |steps|
    ensures Held(before, steps, replaced, k) == before + steps[..k]
      <==> forall j: nat | j <= k && replaced(j) :: j == 0 && before == []
    ensures |Held(before, steps, replaced, k)| == |before| + k ==>
        Held(before, steps, replaced, k) == before + steps[..k]
  {
    if k == 0 {
      assert before + steps[..0] == before;
    } else {
      ReplayHoldsAll(before, steps, replaced, k - 1);
      assert steps[..k] == steps[..k - 1] + [steps[k - 1]];
      assert before + steps[..k] == (before + steps[..k - 1]) + [steps[k - 1]];
    }
  }

  lemma RunSix(s: State, e: seq<Event>)
    requires |e| == 6
    ensures Run(s, e) == Next(Next(Next(Next(Next(Next(s, e[0]), e[1]), e[2]), e[3]), e[4]), e[5])
  {
    var a := Next(s, e[0]);
    var b := Next(a, e[1]);
    var c := Next(b, e[2]);
    var d := Next(c, e[3]);
    var f := Next(d, e[4]);
    assert e[1..][1..] == e[2..] && e[2..][1..] == e[3..] && e[3..][1..] == e[4..] && e[4..][1..] == e[5..];
    assert Run(s, e) == Run(a, e[1..]) == Run(b, e[2..]);
    assert Run(b, e[2..]) == Run(c, e[3..]) == Run(d, e[4..]);
    assert Run(d, e[4..]) == Run(f, e[5..]) == Run(Next(f, e[5]), e[5..][1..]);
    assert e[5..][1..] == [];
  }
}

/**
 Where a build leads: what an opened build publishes, and what keeps it from being published.
 */
module BuildOutcomes {
  import opened Common
  import opened BuildRecipe

  /** The build is open, nothing is under way or waits, and no step is missing from its log. */
  predicate Building(s: State) {
    s.task.Idle? && s.waiting == [] && s.ready && s.running && !s.stopping && !s.failed
  }

  lemma {:induction false} RunThen(s: State, a: seq<Event>, b: seq<Event>)
    ensures Run(s, a + b) == Run(Run(s, a), b)
    decreases |a|
  {
    if a == [] {
      assert a + b == b;
    } else {
      RunThen(Next(s, a[0]), a[1..], b);
      assert (a + b)[1..] == a[1..] + b;
    }
  }

  lemma RunTwo(s: State, e: Event, f: Event)
    ensures Run(s, [e, f]) == Next(Next(s, e), f)
  {
    assert [e, f][1..] == [f] && [f][1..] == [];
    assert Run(Next(s, e), [f]) == Run(Next(Next(s, e), f), []);
  }

  lemma RunThree(s: State, e: Event, f: Event, g: Event)
    ensures Run(s, [e, f, g]) == Next(Next(Next(s, e), f), g)
  {
    RunTwo(Next(s, e), f, g);
    assert [e, f, g][1..] == [f, g];
  }

  // ------------------------------------------------------------------ Steps are logged

  function FileTurns(operation: nat): seq<Event> {
    [StartFile(operation), FileApplied, RecordFile(true)]
  }

  function CommandTurns(exitCode: int): seq<Event> {
    [StartCommand, CommandEnds(exitCode), RecordCommand(true)]
  }

  /** One step from its request to its log entry. */
  function TurnsOf(step: RecipeStep): seq<Event> {
    match step
    case Execute(command, exitCode) => [AcceptCommand(command)] + CommandTurns(exitCode)
    case FileOp(operation) => FileTurns(operation)
  }

  function Turns(steps: seq<RecipeStep>): seq<Event> {
    if steps == [] then [] else TurnsOf(steps[0]) + Turns(steps[1..])
  }

  /** The state after a step that was logged. */
  function Logged(s: State, steps: seq<RecipeStep>): State {
    s.(recipe := s.recipe + steps, completed := s.completed + steps)
  }

  lemma OneStepIsLogged(s: State, step: RecipeStep)
    requires Building(s)
    ensures Run(s, TurnsOf(step)) == Logged(s, [step])
  {
    match step
    case Execute(command, exitCode) =>
      var a := Next(s, AcceptCommand(command));
      assert a.waiting == [Queued(command, true)];
      CommandIsLogged(a, exitCode);
      assert a.waiting[1..] == s.waiting;
      assert ([AcceptCommand(command)] + CommandTurns(exitCode))[1..] == CommandTurns(exitCode);
    case FileOp(operation) => RunThree(s, StartFile(operation), FileApplied, RecordFile(true));
  }

  lemma CommandIsLogged(s: State, exitCode: int)
    requires s.task.Idle? && s.waiting != [] && s.running
    ensures Run(s, CommandTurns(exitCode))
         == Logged(s, [Execute(s.waiting[0].command, exitCode)]).(waiting := s.waiting[1..])
  {
    RunThree(s, StartCommand, CommandEnds(exitCode), RecordCommand(true));
    CommandTakesThree(s, exitCode);
  }

  lemma CommandTakesThree(s: State, exitCode: int)
    requires s.task.Idle? && s.waiting != [] && s.running
    ensures Next(Next(Next(s, StartCommand), CommandEnds(exitCode)), RecordCommand(true))
         == Logged(s, [Execute(s.waiting[0].command, exitCode)]).(waiting := s.waiting[1..])
  {
    var ended := Next(Next(s, StartCommand), CommandEnds(exitCode));
    assert ended.task == Command(s.waiting[0].command, Some(exitCode), s.waiting[0].journaled);
    assert ended.completed == s.completed + [Execute(s.waiting[0].command, exitCode)];
  }

  /** In an open build every command and file operation that is requested and completes is logged, and the
      log is what is published. */
  lemma {:induction false} BuildPublishes(s: State, steps: seq<RecipeStep>)
    requires Building(s)
    ensures Run(s, Turns(steps)) == Logged(s, steps)
    ensures Published(Run(s, Turns(steps))) == Some(s.recipe + steps)
    decreases |steps|
  {
    if steps == [] {
      assert s.recipe + steps == s.recipe && s.completed + steps == s.completed;
    } else {
      RunThen(s, TurnsOf(steps[0]), Turns(steps[1..]));
      OneStepIsLogged(s, steps[0]);
      BuildPublishes(Logged(s, [steps[0]]), steps[1..]);
      assert s.recipe + [steps[0]] + steps[1..] == s.recipe + steps;
      assert s.completed + [steps[0]] + steps[1..] == s.completed + steps;
    }
  }

  /** Requests for commands, in order. */
  function Requests(commands: seq<nat>): seq<Event> {
    seq(|commands|, i requires 0 <= i < |commands| => AcceptCommand(commands[i]))
  }

  function Rows(commands: seq<nat>): seq<Queued> {
    seq(|commands|, i requires 0 <= i < |commands| => Queued(commands[i], true))
  }

  function Ends(exitCodes: seq<int>): seq<Event> {
    if exitCodes == [] then [] else CommandTurns(exitCodes[0]) + Ends(exitCodes[1..])
  }

  function Executed(waiting: seq<Queued>, exitCodes: seq<int>): seq<RecipeStep>
    requires |exitCodes| == |waiting|
  {
    seq(|waiting|, i requires 0 <= i < |waiting| => Execute(waiting[i].command, exitCodes[i]))
  }

  lemma {:induction false} AllAreAccepted(s: State, commands: seq<nat>)
    requires Checked(s)
    ensures Run(s, Requests(commands)) == s.(waiting := s.waiting + Rows(commands))
    decreases |commands|
  {
    if commands == [] {
      assert s.waiting + Rows(commands) == s.waiting;
    } else {
      var t := Next(s, AcceptCommand(commands[0]));
      AllAreAccepted(t, commands[1..]);
      assert Requests(commands)[1..] == Requests(commands[1..]);
      assert t.waiting + Rows(commands[1..]) == s.waiting + Rows(commands);
    }
  }

  lemma {:induction false} AllAreLogged(s: State, exitCodes: seq<int>)
    requires s.task.Idle? && s.running && |exitCodes| == |s.waiting|
    ensures Run(s, Ends(exitCodes)) == Logged(s, Executed(s.waiting, exitCodes)).(waiting := [])
    decreases |exitCodes|
  {
    if exitCodes == [] {
      assert s.recipe + Executed(s.waiting, exitCodes) == s.recipe;
      assert s.completed + Executed(s.waiting, exitCodes) == s.completed;
    } else {
      var first := Execute(s.waiting[0].command, exitCodes[0]);
      CommandIsLogged(s, exitCodes[0]);
      RunThen(s, CommandTurns(exitCodes[0]), Ends(exitCodes[1..]));
      var t := Logged(s, [first]).(waiting := s.waiting[1..]);
      AllAreLogged(t, exitCodes[1..]);
      var rest := Executed(s.waiting[1..], exitCodes[1..]);
      assert Executed(s.waiting, exitCodes) == [first] + rest;
      assert s.recipe + [first] + rest == s.recipe + ([first] + rest);
      assert s.completed + [first] + rest == s.completed + ([first] + rest);
    }
  }

  /** Commands that were accepted before any of them ran are run and logged in the order they came. */
  lemma QueueKeepsOrder(s: State, commands: seq<nat>, exitCodes: seq<int>)
    requires Building(s) && |exitCodes| == |commands|
    ensures var t := Run(Run(s, Requests(commands)), Ends(exitCodes));
      |t.recipe| == |s.recipe| + |commands| && t.recipe[..|s.recipe|] == s.recipe && Published(t) == Some(t.recipe)
      && forall i | 0 <= i < |commands| :: t.recipe[|s.recipe| + i] == Execute(commands[i], exitCodes[i])
  {
    AllAreAccepted(s, commands);
    AllAreLogged(s.(waiting := s.waiting + Rows(commands)), exitCodes);
  }

  // ------------------------------------------------------------------ Builds that are not published

  /** A step is missing from the log, or the container of the log is gone. */
  predicate Lost(s: State) {
    s.failed || !s.ready || !s.running
  }

  /** Once that is so, nothing is published until the build is opened anew. */
  lemma {:induction false} LostForGood(s: State, events: seq<Event>)
    requires Lost(s) && OpenInitialized !in events
    ensures Lost(Run(s, events)) && Published(Run(s, events)) == None
    decreases |events|
  {
    if events != [] {
      assert Lost(Next(s, events[0]));
      LostForGood(Next(s, events[0]), events[1..]);
    }
  }

  /** A step that fails, or whose log entry does not fit, is such a loss, and so is the end of the container
      or a controller that restarts before a command has its result. */
  lemma LossesAreSeen(s: State, e: Event)
    requires match e
      case CommandFails => s.task.Command?
      case FileFails => s.task.File?
      case RecordCommand(fits) => !fits && s.task.Command? && s.task.exitCode.Some?
      case RecordFile(fits) => !fits && s.task.File? && s.task.applied
      case ControllerRestarts => UnfinishedRow(s)
      case OpenFails => s.task.Opening?
      case Destroy => s.task.Idle?
      case ContainerStarts => true
      case ContainerDies => true
      case _ => false
    ensures Lost(Next(s, e))
  {
  }

  /** From its request on, a command that a restart interrupts marks the build. */
  lemma InterruptedCommandIsSeen(s: State, command: nat, exitCode: int)
    requires Building(s)
    ensures var accepted := Next(s, AcceptCommand(command));
      var started := Next(accepted, StartCommand);
      && Lost(Next(accepted, ControllerRestarts)) && Lost(Next(started, ControllerRestarts))
      && Lost(Next(Next(started, CommandEnds(exitCode)), ControllerRestarts))
  {
    assert Next(s, AcceptCommand(command)).waiting[0] == Queued(command, true);
  }

  /** Between steps a restart loses nothing. */
  lemma RestartBetweenSteps(s: State)
    requires Building(s)
    ensures Next(s, ControllerRestarts) == s
  {
  }

  // ------------------------------------------------------------------ Opening and stopping

  /** Opening a build without a ready container starts one and gives an open build with an empty log in it. */
  lemma OpenStartsEmpty(s: State)
    requires s.task.Idle? && s.waiting == [] && !(s.ready && s.running)
    ensures var t := Run(s, [OpenRequested, ContainerStarts, OpenInitialized]);
      Building(t) && t.recipe == [] && t.completed == [] && t.incarnation == s.incarnation + 1
  {
    RunThree(s, OpenRequested, ContainerStarts, OpenInitialized);
  }

  /** A build that was never opened takes nothing, and its first opening is that of the first container. */
  lemma FreshTakesNothing(e: Event)
    requires !e.OpenRequested? && !e.ContainerStarts? && !e.StopRequested?
    ensures Next(Fresh(), e) == Fresh()
    ensures var t := Run(Fresh(), [OpenRequested, ContainerStarts, OpenInitialized]);
      Building(t) && t.recipe == [] && t.incarnation == 1
  {
    OpenStartsEmpty(Fresh());
  }

  /** A stopped build takes no step and publishes nothing; opening it again goes on where it was. */
  lemma StopThenOpen(s: State, command: nat, operation: nat)
    requires Building(s)
    ensures var stopped := Next(s, StopRequested);
      && Published(stopped) == None && Next(stopped, OpenRequested) == s
      && Next(stopped, AcceptCommand(command)) == stopped && Next(stopped, StartFile(operation)) == stopped
  {
  }

  /** While a step is under way no other starts, and the container is not destroyed. */
  lemma OneAtATime(s: State, operation: nat)
    requires !s.task.Idle?
    ensures Next(s, StartCommand) == Next(s, StartFile(operation)) == Next(s, Destroy) == Next(s, OpenRequested) == s
  {
  }
}

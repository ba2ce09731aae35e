/**
 The container cell as an object: the durable recipe, its flags, and the container underneath. Each
 method performs one step of `BuildRecipe`; opening a session replays a recipe.
 */
module ContainerCell {
  import opened Common
  import opened BuildRecipe

  class Cell {
    var recipe: seq<RecipeStep>
    var failed: bool
    var ready: bool
    var running: bool
    var stopping: bool
    var incarnation: nat
    var task: Task
    var waiting: seq<Queued>
    ghost var completed: seq<RecipeStep>

    ghost function View(): State
      reads this
    {
      State(recipe, failed, ready, running, stopping, incarnation, completed, task, waiting)
    }

    /** A controller starting over what the last one stored: every command without a result, running or
        still queued, marks the build failed. */
    constructor (before: State)
      ensures View() == Next(before, ControllerRestarts)
    {
      recipe, ready, running, incarnation := before.recipe, before.ready, before.running, before.incarnation;
      failed := before.failed || UnfinishedRow(before);
      stopping, task, waiting, completed := false, Idle, [], before.completed;
    }

    method OnStart()
      modifies `running, `incarnation, `ready, `completed
      ensures View() == Next(old(View()), ContainerStarts)
    {
      running, incarnation, ready := true, incarnation + 1, false;
      completed := [];
    }

    method Check() returns (ok: bool)
      ensures ok == Checked(View())
    {
      ok := !stopping && running && ready;
    }

    /** A command is journaled and queued, or refused. */
    method Accept(command: nat) returns (ok: bool)
      modifies `waiting
      ensures View() == Next(old(View()), AcceptCommand(command)) && ok == Checked(old(View()))
    {
      ok := Check();
      if ok { waiting := waiting + [Queued(command, true)]; }
    }

    method AppendRecipe(step: RecipeStep, fits: bool) returns (ok: bool)
      modifies `recipe
      ensures ok == fits && recipe == if fits then old(recipe) + [step] else old(recipe)
    {
      if !fits { return false; }
      recipe := recipe + [step];
      ok := true;
    }

    /** The end of a build command: logged if it completed, otherwise the build is marked failed. */
    method EndCommand(exitCode: Option<int>, fits: bool)
      requires task.Command? && (exitCode.Some? ==> task.exitCode == exitCode)
      modifies `recipe, `failed, `task
      ensures View() == Next(old(View()), if exitCode.Some? then RecordCommand(fits) else CommandFails)
    {
      if exitCode.Some? {
        var ok := AppendRecipe(Execute(task.command, exitCode.value), fits);
        if !ok { failed := true; }
      } else {
        failed := true;
      }
      task := Idle;
    }

    method EndFile(applied: bool, fits: bool)
      requires task.File? && (applied ==> task.applied)
      modifies `recipe, `failed, `task
      ensures View() == Next(old(View()), if applied then RecordFile(fits) else FileFails)
    {
      var ok := applied;
      if applied { ok := AppendRecipe(FileOp(task.operation), fits); }
      if !ok { failed := true; }
      task := Idle;
    }

    /** What a template reads when it is published from this build. */
    method ReadRecipe() returns (r: Option<seq<RecipeStep>>)
      requires task.Idle?
      ensures r == Published(View())
    {
      var ok := Check();
      if !ok || failed { return None; }
      r := Some(recipe);
    }

    /** Initializes an opening container: for a build an empty log, for a session a template's steps,
        which must all end as they did when they were logged. `outcome` gives the exit code of a step
        run now, 0 for a file operation, and None where it fails; `replaced` says after how many steps the
        container is replaced under the controller, which does not notice. */
    method Initialize(steps: seq<RecipeStep>, outcome: RecipeStep -> Option<int>, replaced: nat -> bool)
      returns (ok: bool)
      requires task.Opening? && running
      modifies this
      ensures ok <==> forall k | 0 <= k < |steps| :: Replays(steps[k], outcome)
      ensures ok ==> View() == Next(old(View()), OpenInitialized).(
        completed := Held(old(completed), steps, replaced, |steps|), incarnation := incarnation)
      ensures !ok ==> !ready && !running && task.Idle?
    {
      recipe, failed, waiting := [], false, RowsDeleted(waiting);
      ok := Replay(steps, outcome, replaced);
      ready, running, task := ok, ok, Idle;
    }

    /** Runs the steps of a recipe again until one ends differently. */
    method Replay(steps: seq<RecipeStep>, outcome: RecipeStep -> Option<int>, replaced: nat -> bool) returns (ok: bool)
      requires running
      modifies `running, `incarnation, `ready, `completed
      ensures running && (ok <==> forall k | 0 <= k < |steps| :: Replays(steps[k], outcome))
      ensures ok ==> completed == Held(old(completed), steps, replaced, |steps|)
    {
      if replaced(0) { OnStart(); }
      for k := 0 to |steps|
        invariant running && forall j | 0 <= j < k :: Replays(steps[j], outcome)
        invariant completed == Held(old(completed), steps, replaced, k)
      {
        if !Replays(steps[k], outcome) { return false; }
        completed := completed + [steps[k]];
        if replaced(k + 1) { OnStart(); }
      }
      ok := true;
    }
  }

  /** A step of the log happens again as it did. */
  predicate Replays(step: RecipeStep, outcome: RecipeStep -> Option<int>) {
    match step
    case Execute(_, exitCode) => outcome(step) == Some(exitCode)
    case FileOp(_) => outcome(step).Some?
  }
}

/** The older snapshot's `getPlan` after planning, and its `check`. The snapshot's own
    planner has no `plan` entry point, so the planned commands are a parameter; they are
    the newer build's commands, which this file switches on. The index filter only drops
    commands, and `check` never looks at the plan. */
module SrcActions {
  import opened JsValues
  import opened SchemaTypes
  import opened DistCommand
  import opened SrcErrors
  import SrcVerifier

  /** The options `getPlan` reads. */
  datatype Options = Options(
    applicationId: string,
    key: string,
    hookUrl: Option<string>,
    ignoreIndexes: bool,
    ignorePrivateIndexes: bool,
    disallowColumnRedefine: bool,
    disallowIndexRedefine: bool)

  /** The filter `ignoreIndexes` applies: keep a command unless its type is one of the
      three index kinds. */
  predicate KeptWithoutIndexes(c: Command) {
    Tag(c) != "AddIndex" && Tag(c) != "UpdateIndex" && Tag(c) != "DeleteIndex"
  }

  lemma KeptIffNotIndex(c: Command)
    ensures KeptWithoutIndexes(c) <==> !(c.AddIndex? || c.UpdateIndex? || c.DeleteIndex?)
  {
    IndexTags(c);
  }

  /** `commands.filter(...)` with that test. */
  function WithoutIndexCommands(commands: seq<Command>): seq<Command> {
    if commands == [] then []
    else (if KeptWithoutIndexes(commands[0]) then [commands[0]] else []) + WithoutIndexCommands(commands[1..])
  }

  /** The column gate's test, as written; it holds for every command. */
  predicate ColumnGateRejects(c: Command) {
    Tag(c) != "UpdateColumn" || Tag(c) != "DeleteColumn"
  }

  /** The index gate's test, as written; it holds for every command. */
  predicate IndexGateRejects(c: Command) {
    Tag(c) != "UpdateIndex" || Tag(c) != "DeleteIndex"
  }

  function Filtered(planned: seq<Command>, options: Options): seq<Command> {
    if options.ignoreIndexes then WithoutIndexCommands(planned) else planned
  }

  /** What `getPlan` resolves to (`Ok`) or rejects with (`Err`), given the commands the
      planner produced for the desired and the live schema. */
  function PlanOutcome(desired: Schema, planned: seq<Command>, options: Options): Result<seq<Command>, CliError> {
    var validationErrors := SrcVerifier.SchemaErrors(desired);
    if |validationErrors| > 0 then Err(InvalidSchemaError(validationErrors))
    else
      var commands := Filtered(planned, options);
      var column := FirstWhere(commands, ColumnGateRejects);
      var index := FirstWhere(commands, IndexGateRejects);
      if options.disallowColumnRedefine && column.Some? then Err(DisallowedCommandError(column.value))
      else if options.disallowIndexRedefine && index.Some? then Err(DisallowedCommandError(index.value))
      else Ok(commands)
  }

  // ---------------------------------------------------------------------------
  // The steps

  /** A gate's `forEach`: the first command the test rejects, where the loop throws. */
  method FirstRejected(commands: seq<Command>, rejects: Command -> bool) returns (r: Option<Command>)
    ensures r == FirstWhere(commands, rejects)
  {
    var i := 0;
    while i < |commands|
      invariant 0 <= i <= |commands|
      invariant FirstWhere(commands, rejects) == FirstWhere(commands[i..], rejects)
    {
      assert commands[i..][1..] == commands[i + 1..];
      if rejects(commands[i]) {
        return Some(commands[i]);
      }
      i := i + 1;
    }
    return None;
  }

  /** `getPlan`: verify, filter, then the two redefine gates, in that order. */
  method GetPlan(desired: Schema, planned: seq<Command>, options: Options) returns (result: Result<seq<Command>, CliError>)
    ensures result == PlanOutcome(desired, planned, options)
  {
    var validationErrors := SrcVerifier.VerifySchema(desired);
    if |validationErrors| > 0 {
      return Err(InvalidSchemaError(validationErrors));
    }
    var commands := planned;
    if options.ignoreIndexes {
      commands := WithoutIndexCommands(commands);
    }
    if options.disallowColumnRedefine {
      var rejected := FirstRejected(commands, ColumnGateRejects);
      if rejected.Some? {
        return Err(DisallowedCommandError(rejected.value));
      }
    }
    if options.disallowIndexRedefine {
      var rejected := FirstRejected(commands, IndexGateRejects);
      if rejected.Some? {
        return Err(DisallowedCommandError(rejected.value));
      }
    }
    return Ok(commands);
  }

  /** `check`: the plan is requested but not awaited, so what is tested for being empty
      is a pending promise, which has no length; the check therefore always fails with
      the out-of-sync error, whatever the plan would have been. */
  function CheckOutcome(desired: Schema, planned: seq<Command>, options: Options): (r: Result<(), CliError>)
    ensures r == Err(OutOfSyncError()) && r.error.kind.OutOfSync?
  {
    var pendingLength: Option<nat> := None;
    if pendingLength == Some(0) then Ok(()) else Err(OutOfSyncError())
  }

  // ---------------------------------------------------------------------------
  // What the options do

  /** An invalid desired schema is refused with exactly its validation errors, whatever
      the plan and the options. */
  lemma InvalidSchemaRefused(desired: Schema, planned: seq<Command>, options: Options)
    requires SrcVerifier.SchemaErrors(desired) != []
    ensures PlanOutcome(desired, planned, options) == Err(InvalidSchemaError(SrcVerifier.SchemaErrors(desired)))
  {
  }

  /** The index filter keeps exactly the commands that are not about indexes, nothing
      else changed, in their order. */
  lemma WithoutIndexCommandsKeeps(commands: seq<Command>, c: Command)
    ensures c in WithoutIndexCommands(commands) <==> c in commands && !(c.AddIndex? || c.UpdateIndex? || c.DeleteIndex?)
    ensures |WithoutIndexCommands(commands)| <= |commands|
    ensures (forall d | d in commands :: !(d.AddIndex? || d.UpdateIndex? || d.DeleteIndex?))
            ==> WithoutIndexCommands(commands) == commands
  {
    KeptIffNotIndex(c);
    forall d | d in commands ensures KeptWithoutIndexes(d) <==> !(d.AddIndex? || d.UpdateIndex? || d.DeleteIndex?) {
      KeptIffNotIndex(d);
    }
    WithoutIndexCommandsMember(commands, c);
    WithoutIndexCommandsShorter(commands);
    WithoutIndexCommandsNoop(commands);
  }

  lemma {:induction false} WithoutIndexCommandsMember(commands: seq<Command>, c: Command)
    ensures c in WithoutIndexCommands(commands) <==> c in commands && KeptWithoutIndexes(c)
  {
    if commands != [] {
      var rest := WithoutIndexCommands(commands[1..]);
      WithoutIndexCommandsMember(commands[1..], c);
      assert commands == [commands[0]] + commands[1..];
      assert WithoutIndexCommands(commands) == (if KeptWithoutIndexes(commands[0]) then [commands[0]] else []) + rest;
    }
  }

  lemma {:induction false} WithoutIndexCommandsShorter(commands: seq<Command>)
    ensures |WithoutIndexCommands(commands)| <= |commands|
  {
    if commands != [] {
      WithoutIndexCommandsShorter(commands[1..]);
    }
  }

  lemma {:induction false} WithoutIndexCommandsNoop(commands: seq<Command>)
    ensures (forall d | d in commands :: KeptWithoutIndexes(d)) ==> WithoutIndexCommands(commands) == commands
  {
    if commands != [] && forall d | d in commands :: KeptWithoutIndexes(d) {
      assert commands[0] in commands;
      assert forall d | d in commands[1..] :: d in commands;
      WithoutIndexCommandsNoop(commands[1..]);
      assert commands == [commands[0]] + commands[1..];
    }
  }

  /** Dropping index commands twice drops nothing more. */
  lemma {:induction false} FilterIdempotent(commands: seq<Command>)
    ensures WithoutIndexCommands(WithoutIndexCommands(commands)) == WithoutIndexCommands(commands)
  {
    var kept := WithoutIndexCommands(commands);
    forall d | d in kept ensures !(d.AddIndex? || d.UpdateIndex? || d.DeleteIndex?) {
      WithoutIndexCommandsKeeps(commands, d);
    }
    WithoutIndexCommandsKeeps(kept, DeleteCollection(""));
  }

  /** Neither gate's test can fail: `||` of two type inequalities is always true. */
  lemma GatesRejectEverything(c: Command)
    ensures ColumnGateRejects(c) && IndexGateRejects(c)
  {
  }

  /** With either redefine gate on, a valid schema that needs any change at all is
      refused on the first command, whatever that command is; with both off, the
      filtered plan comes back. */
  lemma RedefineGates(desired: Schema, planned: seq<Command>, options: Options)
    requires SrcVerifier.SchemaErrors(desired) == []
    ensures var commands := Filtered(planned, options);
      PlanOutcome(desired, planned, options)
        == if (options.disallowColumnRedefine || options.disallowIndexRedefine) && commands != []
           then Err(DisallowedCommandError(commands[0]))
           else Ok(commands)
  {
    var commands := Filtered(planned, options);
    if commands != [] {
      GatesRejectEverything(commands[0]);
      assert FirstWhere(commands, ColumnGateRejects) == Some(commands[0]);
      assert FirstWhere(commands, IndexGateRejects) == Some(commands[0]);
    }
  }
}

/** The newer build's `getPlan` after the live schema has been read, and `check`: the
    desired schema is verified first, then planned against the live one, then filtered
    and gated according to the user's options. The live schema is a parameter. */
module DistActions {
  import opened JsValues
  import opened SchemaTypes
  import opened DistCommand
  import opened DistErrors
  import DistPlanner
  import DistVerifier

  /** The validated command-line options. */
  datatype Options = Options(
    applicationId: string,
    key: string,
    hookUrl: Option<string>,
    ignoreIndexes: bool,
    disallowColumnRedefine: bool,
    disallowIndexRedefine: bool)

  /** The filter `ignoreIndexes` applies: keep a command unless its type is one of the
      three index kinds. */
  predicate KeptWithoutIndexes(c: Command) {
    Tag(c) != "AddIndex" && Tag(c) != "UpdateIndex" && Tag(c) != "DeleteIndex"
  }

  lemma KeptIffNotIndex(c: Command)
    ensures KeptWithoutIndexes(c) <==> !(c.AddIndex? || c.UpdateIndex? || c.DeleteIndex?)
  {
    IndexTags(c);
  }

  /** `commands.filter(...)` with that test. */
  function WithoutIndexCommands(commands: seq<Command>): seq<Command> {
    if commands == [] then []
    else (if KeptWithoutIndexes(commands[0]) then [commands[0]] else []) + WithoutIndexCommands(commands[1..])
  }

  /** A new collection is created with no indexes; every other command is left as is. */
  function ClearIndexes(c: Command): Command {
    if c.AddCollection? then AddCollection(c.collectionDef.(indexes := Some([]))) else c
  }

  function ClearAllIndexes(commands: seq<Command>): (r: seq<Command>)
    ensures |r| == |commands|
  {
    seq(|commands|, i requires 0 <= i < |commands| => ClearIndexes(commands[i]))
  }

  /** The column gate's test, as written: no command has two different types, so it
      holds for every command. */
  predicate ColumnGateRejects(c: Command) {
    Tag(c) != "UpdateColumn" || Tag(c) != "DeleteColumn"
  }

  /** The index gate's test, as written; it too holds for every command. */
  predicate IndexGateRejects(c: Command) {
    Tag(c) != "UpdateIndex" || Tag(c) != "DeleteIndex"
  }

  /** The planned commands once the index filter has been applied. */
  function Filtered(planned: seq<Command>, options: Options): seq<Command> {
    if options.ignoreIndexes then ClearAllIndexes(WithoutIndexCommands(planned)) else planned
  }

  /** What `getPlan` resolves to (`Ok`) or rejects with (`Err`). */
  function PlanOutcome(desired: Schema, observed: Schema, options: Options): Result<seq<Command>, CliError> {
    var validationErrors := DistVerifier.SchemaErrors(desired);
    if |validationErrors| > 0 then Err(InvalidSchemaError(validationErrors))
    else
      var commands := Filtered(DistPlanner.Planned(desired, observed, options.hookUrl), options);
      var column := FirstWhere(commands, ColumnGateRejects);
      var index := FirstWhere(commands, IndexGateRejects);
      if options.disallowColumnRedefine && column.Some? then Err(DisallowedCommandError(column.value))
      else if options.disallowIndexRedefine && index.Some? then Err(DisallowedCommandError(index.value))
      else Ok(commands)
  }

  /** What `check` resolves to (`Ok`) or rejects with (`Err`). */
  function CheckOutcome(desired: Schema, observed: Schema, options: Options): Result<(), CliError> {
    match PlanOutcome(desired, observed, options)
    case Err(e) => Err(e)
    case Ok(commands) => if |commands| == 0 then Ok(()) else Err(OutOfSyncError(commands))
  }

  // ---------------------------------------------------------------------------
  // The steps

  /** The `forEach` that empties the indexes of every collection about to be created,
      changing the commands in place. */
  method ClearAddedCollectionIndexes(a: array<Command>)
    modifies a
    ensures a[..] == ClearAllIndexes(old(a[..]))
  {
    var i := 0;
    while i < a.Length
      invariant 0 <= i <= a.Length
      invariant forall j | 0 <= j < i :: a[j] == ClearIndexes(old(a[j]))
      invariant forall j | i <= j < a.Length :: a[j] == old(a[j])
    {
      if a[i].AddCollection? {
        a[i] := AddCollection(a[i].collectionDef.(indexes := Some([])));
      }
      i := i + 1;
    }
  }

  /** A gate's `forEach`: the first command the test rejects, where the loop throws. */
  method FirstRejected(commands: seq<Command>, rejects: Command -> bool) returns (r: Option<Command>)
    ensures r == FirstWhere(commands, rejects)
  {
    var i := 0;
    while i < |commands|
      invariant 0 <= i <= |commands|
      invariant FirstWhere(commands, rejects) == FirstWhere(commands[i..], rejects)
    {
      assert commands[i..][1..] == commands[i + 1..];
      if rejects(commands[i]) {
        return Some(commands[i]);
      }
      i := i + 1;
    }
    return None;
  }

  /** With `ignoreIndexes`: drop the index commands, then clear the indexes of the new
      collections in place. */
  method ApplyIndexFilter(planned: seq<Command>, options: Options) returns (commands: seq<Command>)
    ensures commands == Filtered(planned, options)
  {
    commands := planned;
    if options.ignoreIndexes {
      commands := WithoutIndexCommands(commands);
      var a := new Command[|commands|](i requires 0 <= i < |commands| => commands[i]);
      assert a[..] == commands;
      ClearAddedCollectionIndexes(a);
      commands := a[..];
    }
  }

  /** `getPlan`: verify, plan, filter, then the two redefine gates, in that order. */
  method GetPlan(desired: Schema, observed: Schema, options: Options) returns (result: Result<seq<Command>, CliError>)
    ensures result == PlanOutcome(desired, observed, options)
  {
    var validationErrors := DistVerifier.VerifySchema(desired);
    if |validationErrors| > 0 {
      return Err(InvalidSchemaError(validationErrors));
    }
    var planned := DistPlanner.Plan(desired, observed, options.hookUrl);
    var commands := ApplyIndexFilter(planned, options);
    if options.disallowColumnRedefine {
      var rejected := FirstRejected(commands, ColumnGateRejects);
      if rejected.Some? {
        return Err(DisallowedCommandError(rejected.value));
      }
    }
    if options.disallowIndexRedefine {
      var rejected := FirstRejected(commands, IndexGateRejects);
      if rejected.Some? {
        return Err(DisallowedCommandError(rejected.value));
      }
    }
    return Ok(commands);
  }

  /** `check`: succeeds when nothing needs to change, and otherwise reports every
      change that would be made. */
  method Check(desired: Schema, observed: Schema, options: Options) returns (result: Result<(), CliError>)
    ensures result == CheckOutcome(desired, observed, options)
  {
    var plan := GetPlan(desired, observed, options);
    if plan.Err? {
      return Err(plan.error);
    }
    if |plan.value| == 0 {
      return Ok(());
    }
    return Err(OutOfSyncError(plan.value));
  }

  // ---------------------------------------------------------------------------
  // What the options do

  /** An invalid desired schema is refused with exactly its validation errors, whatever
      the live schema and the options. */
  lemma InvalidSchemaRefused(desired: Schema, observed: Schema, options: Options)
    requires DistVerifier.SchemaErrors(desired) != []
    ensures PlanOutcome(desired, observed, options) == Err(InvalidSchemaError(DistVerifier.SchemaErrors(desired)))
    ensures CheckOutcome(desired, observed, options) == Err(InvalidSchemaError(DistVerifier.SchemaErrors(desired)))
  {
  }

  /** The index filter keeps exactly the commands that are not about indexes, in their
      order. */
  lemma WithoutIndexCommandsKeeps(commands: seq<Command>, c: Command)
    ensures c in WithoutIndexCommands(commands) <==> c in commands && !(c.AddIndex? || c.UpdateIndex? || c.DeleteIndex?)
    ensures |WithoutIndexCommands(commands)| <= |commands|
    ensures (forall d | d in commands :: !(d.AddIndex? || d.UpdateIndex? || d.DeleteIndex?))
            ==> WithoutIndexCommands(commands) == commands
  {
    KeptIffNotIndex(c);
    forall d | d in commands ensures KeptWithoutIndexes(d) <==> !(d.AddIndex? || d.UpdateIndex? || d.DeleteIndex?) {
      KeptIffNotIndex(d);
    }
    WithoutIndexCommandsMember(commands, c);
    WithoutIndexCommandsShorter(commands);
    WithoutIndexCommandsNoop(commands);
  }

  lemma {:induction false} WithoutIndexCommandsMember(commands: seq<Command>, c: Command)
    ensures c in WithoutIndexCommands(commands) <==> c in commands && KeptWithoutIndexes(c)
  {
    if commands != [] {
      var rest := WithoutIndexCommands(commands[1..]);
      WithoutIndexCommandsMember(commands[1..], c);
      assert commands == [commands[0]] + commands[1..];
      assert WithoutIndexCommands(commands) == (if KeptWithoutIndexes(commands[0]) then [commands[0]] else []) + rest;
    }
  }

  lemma {:induction false} WithoutIndexCommandsShorter(commands: seq<Command>)
    ensures |WithoutIndexCommands(commands)| <= |commands|
  {
    if commands != [] {
      WithoutIndexCommandsShorter(commands[1..]);
    }
  }

  lemma {:induction false} WithoutIndexCommandsNoop(commands: seq<Command>)
    ensures (forall d | d in commands :: KeptWithoutIndexes(d)) ==> WithoutIndexCommands(commands) == commands
  {
    if commands != [] && forall d | d in commands :: KeptWithoutIndexes(d) {
      assert commands[0] in commands;
      assert forall d | d in commands[1..] :: d in commands;
      WithoutIndexCommandsNoop(commands[1..]);
      assert commands == [commands[0]] + commands[1..];
    }
  }

  /** With `ignoreIndexes`, the plan holds no index command and every new collection is
      created without indexes; any other command is kept, unchanged, exactly when it
      was planned. */
  lemma IgnoringIndexes(planned: seq<Command>, options: Options, c: Command)
    requires options.ignoreIndexes
    ensures forall d | d in Filtered(planned, options) ::
      !(d.AddIndex? || d.UpdateIndex? || d.DeleteIndex?) && (d.AddCollection? ==> d.collectionDef.indexes == Some([]))
    ensures !c.AddCollection? ==>
      (c in Filtered(planned, options) <==> c in planned && !(c.AddIndex? || c.UpdateIndex? || c.DeleteIndex?))
  {
    var kept := WithoutIndexCommands(planned);
    var r := Filtered(planned, options);
    forall d | d in r
      ensures !(d.AddIndex? || d.UpdateIndex? || d.DeleteIndex?) && (d.AddCollection? ==> d.collectionDef.indexes == Some([]))
    {
      var i :| 0 <= i < |r| && r[i] == d;
      assert kept[i] in kept;
      WithoutIndexCommandsKeeps(planned, kept[i]);
    }
    WithoutIndexCommandsKeeps(planned, c);
    if !c.AddCollection? {
      if c in kept {
        var i :| 0 <= i < |kept| && kept[i] == c;
        assert r[i] == c;
      }
      if c in r {
        var i :| 0 <= i < |r| && r[i] == c;
        assert kept[i] == c;
      }
    }
  }

  /** Neither gate's test can fail: `||` of two type inequalities is always true. */
  lemma GatesRejectEverything(c: Command)
    ensures ColumnGateRejects(c) && IndexGateRejects(c)
  {
  }

  /** With either redefine gate on, a valid schema that needs any change at all is
      refused on the first command, whatever that command is; with both off, the
      filtered plan comes back. */
  lemma RedefineGates(desired: Schema, observed: Schema, options: Options)
    requires DistVerifier.SchemaErrors(desired) == []
    ensures var commands := Filtered(DistPlanner.Planned(desired, observed, options.hookUrl), options);
      PlanOutcome(desired, observed, options)
        == if (options.disallowColumnRedefine || options.disallowIndexRedefine) && commands != []
           then Err(DisallowedCommandError(commands[0]))
           else Ok(commands)
  {
    var commands := Filtered(DistPlanner.Planned(desired, observed, options.hookUrl), options);
    if commands != [] {
      GatesRejectEverything(commands[0]);
      assert FirstWhere(commands, ColumnGateRejects) == Some(commands[0]);
      assert FirstWhere(commands, IndexGateRejects) == Some(commands[0]);
    }
  }

  /** `check` passes exactly when the plan comes back empty, and otherwise reports the
      plan it got. */
  lemma CheckPassesIffNothingToDo(desired: Schema, observed: Schema, options: Options)
    ensures CheckOutcome(desired, observed, options).Ok? <==> PlanOutcome(desired, observed, options) == Ok([])
    ensures PlanOutcome(desired, observed, options).Ok? && PlanOutcome(desired, observed, options).value != [] ==>
      CheckOutcome(desired, observed, options) == Err(OutOfSyncError(PlanOutcome(desired, observed, options).value))
  {
  }
}

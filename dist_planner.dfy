/** The current planner: the ordered list of commands that turns the observed schema
    into the desired one. Collections are matched by class name, functions by function
    name and triggers by trigger name and class; changed columns, indexes, permissions
    and hook urls are updated in place, and hook urls may be rebased on a common
    prefix.

    Each group of commands is specified by a function (one block per input element, as
    the source's `forEach` loops push), computed by a method with a loop, and
    characterised by lemmas. */
module DistPlanner {
  import opened JsValues
  import opened SchemaTypes
  import opened DistCommand

  /** `new Map(collections.map(c => [c.className, c]))`. */
  type ClassMap = map<string, CollectionDefinition>

  function ClassMapOf(cs: seq<CollectionDefinition>): ClassMap {
    NewMap(ByClassName(cs))
  }

  // ---------------------------------------------------------------------------
  // Equality as `lodash.isequal` sees it

  /** Two optional permission objects are equal when both are missing, or both are
      present with the same operations, each granting the same roles the same flags;
      key order does not matter. */
  predicate PermissionsEqual(a: Option<CollectionPermissions>, b: Option<CollectionPermissions>) {
    if a.None? || b.None? then a == b
    else
      KeySet(a.value) == KeySet(b.value) &&
      forall k | k in KeySet(a.value) :: SameEntries(Get(a.value, k).value, Get(b.value, k).value)
  }

  lemma PermissionsEqualReflexive(p: Option<CollectionPermissions>)
    ensures PermissionsEqual(p, p)
  {
  }

  // ---------------------------------------------------------------------------
  // Collections: one block of commands per collection

  function NewCollectionStep(c: CollectionDefinition, observed: ClassMap): seq<Command> {
    if c.className !in observed then [AddCollection(c)] else []
  }

  function NewCollections(desired: seq<CollectionDefinition>, observed: ClassMap): seq<Command> {
    FlatMap(desired, c => NewCollectionStep(c, observed))
  }

  function DeletedCollectionStep(c: CollectionDefinition, desired: ClassMap): seq<Command> {
    if c.className !in desired then [DeleteCollection(c.className)] else []
  }

  function DeletedCollections(observed: seq<CollectionDefinition>, desired: ClassMap): seq<Command> {
    FlatMap(observed, c => DeletedCollectionStep(c, desired))
  }

  function PermissionsStep(c: CollectionDefinition, observed: ClassMap): seq<Command> {
    if c.className in observed
       && !PermissionsEqual(c.classLevelPermissions, observed[c.className].classLevelPermissions)
    then [UpdateCollectionPermissions(c.className, c.classLevelPermissions,
                                      observed[c.className].classLevelPermissions)]
    else []
  }

  function UpdatedPermissions(desired: seq<CollectionDefinition>, observed: ClassMap): seq<Command> {
    FlatMap(desired, c => PermissionsStep(c, observed))
  }

  /** The command for one desired field of a collection on both sides. */
  function ColumnStep(className: string, field: (string, ColumnDefinition), prior: Obj<ColumnDefinition>): seq<Command> {
    var oldField := Get(prior, field.0);
    if oldField.None? then [AddColumn(className, field.0, field.1)]
    else if oldField.value != field.1 then [UpdateColumn(className, field.0, field.1)]
    else []
  }

  function ColumnChanges(className: string, fields: seq<(string, ColumnDefinition)>, prior: Obj<ColumnDefinition>): seq<Command> {
    FlatMap(fields, f => ColumnStep(className, f, prior))
  }

  function NewColumnsStep(c: CollectionDefinition, observed: ClassMap): seq<Command> {
    if c.className in observed then ColumnChanges(c.className, c.fields, observed[c.className].fields) else []
  }

  function NewColumns(desired: seq<CollectionDefinition>, observed: ClassMap): seq<Command> {
    FlatMap(desired, c => NewColumnsStep(c, observed))
  }

  function DeletedColumnStep(className: string, field: (string, ColumnDefinition), current: Obj<ColumnDefinition>): seq<Command> {
    if Get(current, field.0).None? then [DeleteColumn(className, field.0)] else []
  }

  function ColumnDeletions(className: string, fields: seq<(string, ColumnDefinition)>, current: Obj<ColumnDefinition>): seq<Command> {
    FlatMap(fields, f => DeletedColumnStep(className, f, current))
  }

  function DeletedColumnsStep(c: CollectionDefinition, desired: ClassMap): seq<Command> {
    if c.className in desired then ColumnDeletions(c.className, c.fields, desired[c.className].fields) else []
  }

  function DeletedColumns(observed: seq<CollectionDefinition>, desired: ClassMap): seq<Command> {
    FlatMap(observed, c => DeletedColumnsStep(c, desired))
  }

  /** The command for one desired index of a collection on both sides. */
  function IndexStep(className: string, index: (string, IndexDefinition), prior: Obj<IndexDefinition>): seq<Command> {
    var oldIndex := Get(prior, index.0);
    if oldIndex.None? then [AddIndex(className, index.0, index.1)]
    else if !SameEntries(oldIndex.value, index.1) then [UpdateIndex(className, index.0, index.1)]
    else []
  }

  function IndexChanges(className: string, indexes: seq<(string, IndexDefinition)>, prior: Obj<IndexDefinition>): seq<Command> {
    FlatMap(indexes, i => IndexStep(className, i, prior))
  }

  function NewIndexesStep(c: CollectionDefinition, observed: ClassMap): seq<Command> {
    if c.className in observed
    then IndexChanges(c.className, OrEmpty(c.indexes), OrEmpty(observed[c.className].indexes))
    else []
  }

  function NewIndexes(desired: seq<CollectionDefinition>, observed: ClassMap): seq<Command> {
    FlatMap(desired, c => NewIndexesStep(c, observed))
  }

  function DeletedIndexStep(className: string, index: (string, IndexDefinition), current: Obj<IndexDefinition>): seq<Command> {
    if Get(current, index.0).None? then [DeleteIndex(className, index.0)] else []
  }

  function IndexDeletions(className: string, indexes: seq<(string, IndexDefinition)>, current: Obj<IndexDefinition>): seq<Command> {
    FlatMap(indexes, i => DeletedIndexStep(className, i, current))
  }

  function DeletedIndexesStep(c: CollectionDefinition, desired: ClassMap): seq<Command> {
    if c.className in desired
    then IndexDeletions(c.className, OrEmpty(c.indexes), OrEmpty(desired[c.className].indexes))
    else []
  }

  function DeletedIndexes(observed: seq<CollectionDefinition>, desired: ClassMap): seq<Command> {
    FlatMap(observed, c => DeletedIndexesStep(c, desired))
  }

  /** `planCollections`: the seven groups in the order that lets indexes use columns
      added before them. */
  function CollectionCommands(desired: seq<CollectionDefinition>, observed: seq<CollectionDefinition>): seq<Command> {
    var om := ClassMapOf(observed);
    var dm := ClassMapOf(desired);
    NewCollections(desired, om) + DeletedCollections(observed, dm) + UpdatedPermissions(desired, om)
    + DeletedIndexes(observed, dm) + DeletedColumns(observed, dm) + NewColumns(desired, om)
    + NewIndexes(desired, om)
  }

  // ---------------------------------------------------------------------------
  // Hooks

  /** The definition with its url prefixed by `hookUrl` when that is truthy; the
      original definition is left as it was. */
  function RebaseFunction(f: FunctionDefinition, hookUrl: Option<string>): FunctionDefinition {
    if Truthy(hookUrl) then f.(url := hookUrl.value + f.url) else f
  }

  function RebaseTrigger(t: TriggerDefinition, hookUrl: Option<string>): TriggerDefinition {
    if Truthy(hookUrl) then t.(url := hookUrl.value + t.url) else t
  }

  function ByFunctionName(fs: seq<FunctionDefinition>): (r: seq<(string, FunctionDefinition)>)
    ensures |r| == |fs|
    ensures forall i | 0 <= i < |fs| :: r[i] == (fs[i].functionName, fs[i])
  {
    if fs == [] then [] else [(fs[0].functionName, fs[0])] + ByFunctionName(fs[1..])
  }

  function FunctionMapOf(fs: seq<FunctionDefinition>): map<string, FunctionDefinition> {
    NewMap(ByFunctionName(fs))
  }

  function NewFunctionStep(f: FunctionDefinition, observed: map<string, FunctionDefinition>,
                           hookUrl: Option<string>): seq<Command>
  {
    var actual := RebaseFunction(f, hookUrl);
    if actual.functionName !in observed then [AddFunction(actual)]
    else if observed[actual.functionName].url != actual.url then [UpdateFunction(actual)]
    else []
  }

  function NewFunctions(desired: seq<FunctionDefinition>, observed: map<string, FunctionDefinition>,
                        hookUrl: Option<string>): seq<Command>
  {
    FlatMap(desired, f => NewFunctionStep(f, observed, hookUrl))
  }

  function DeletedFunctionStep(f: FunctionDefinition, desired: map<string, FunctionDefinition>): seq<Command> {
    if f.functionName !in desired then [DeleteFunction(f.functionName)] else []
  }

  function DeletedFunctions(observed: seq<FunctionDefinition>, desired: map<string, FunctionDefinition>): seq<Command> {
    FlatMap(observed, f => DeletedFunctionStep(f, desired))
  }

  /** `planFunctions`: deletions first, then additions and updates. */
  function FunctionCommands(desired: seq<FunctionDefinition>, observed: seq<FunctionDefinition>,
                            hookUrl: Option<string>): seq<Command>
  {
    DeletedFunctions(observed, FunctionMapOf(desired)) + NewFunctions(desired, FunctionMapOf(observed), hookUrl)
  }

  /** `${triggerName}-${className}`. */
  function TriggerKey(t: TriggerDefinition): string {
    t.triggerName + "-" + t.className
  }

  function ByTriggerKey(ts: seq<TriggerDefinition>): (r: seq<(string, TriggerDefinition)>)
    ensures |r| == |ts|
    ensures forall i | 0 <= i < |ts| :: r[i] == (TriggerKey(ts[i]), ts[i])
  {
    if ts == [] then [] else [(TriggerKey(ts[0]), ts[0])] + ByTriggerKey(ts[1..])
  }

  function TriggerMapOf(ts: seq<TriggerDefinition>): map<string, TriggerDefinition> {
    NewMap(ByTriggerKey(ts))
  }

  function NewTriggerStep(t: TriggerDefinition, observed: map<string, TriggerDefinition>,
                          hookUrl: Option<string>): seq<Command>
  {
    var actual := RebaseTrigger(t, hookUrl);
    if TriggerKey(actual) !in observed then [AddTrigger(actual)]
    else if observed[TriggerKey(actual)].url != actual.url then [UpdateTrigger(actual)]
    else []
  }

  function NewTriggers(desired: seq<TriggerDefinition>, observed: map<string, TriggerDefinition>,
                       hookUrl: Option<string>): seq<Command>
  {
    FlatMap(desired, t => NewTriggerStep(t, observed, hookUrl))
  }

  function DeletedTriggerStep(t: TriggerDefinition, desired: map<string, TriggerDefinition>): seq<Command> {
    if TriggerKey(t) !in desired then [DeleteTrigger(t.className, t.triggerName)] else []
  }

  function DeletedTriggers(observed: seq<TriggerDefinition>, desired: map<string, TriggerDefinition>): seq<Command> {
    FlatMap(observed, t => DeletedTriggerStep(t, desired))
  }

  /** `planTriggers`: deletions first, then additions and updates. */
  function TriggerCommands(desired: seq<TriggerDefinition>, observed: seq<TriggerDefinition>,
                           hookUrl: Option<string>): seq<Command>
  {
    DeletedTriggers(observed, TriggerMapOf(desired)) + NewTriggers(desired, TriggerMapOf(observed), hookUrl)
  }

  /** `plan`. */
  function Planned(desired: Schema, observed: Schema, hookUrl: Option<string>): seq<Command> {
    CollectionCommands(desired.collections, observed.collections)
    + FunctionCommands(desired.functions, observed.functions, hookUrl)
    + TriggerCommands(desired.triggers, observed.triggers, hookUrl)
  }

  // ---------------------------------------------------------------------------
  // The loops

  method ComputeNewCollections(desired: seq<CollectionDefinition>, observed: ClassMap) returns (nc: seq<Command>)
    ensures nc == NewCollections(desired, observed)
  {
    nc := [];
    var i := 0;
    while i < |desired|
      invariant 0 <= i <= |desired|
      invariant nc == NewCollections(desired[..i], observed)
    {
      var collection := desired[i];
      if collection.className !in observed {
        nc := nc + [AddCollection(collection)];
      }
      FlatMapSnoc(desired, i, c => NewCollectionStep(c, observed));
      i := i + 1;
    }
    assert desired[..i] == desired;
  }

  method ComputeDeletedCollections(observed: seq<CollectionDefinition>, desired: ClassMap) returns (dc: seq<Command>)
    ensures dc == DeletedCollections(observed, desired)
  {
    dc := [];
    var i := 0;
    while i < |observed|
      invariant 0 <= i <= |observed|
      invariant dc == DeletedCollections(observed[..i], desired)
    {
      var collection := observed[i];
      if collection.className !in desired {
        dc := dc + [DeleteCollection(collection.className)];
      }
      FlatMapSnoc(observed, i, c => DeletedCollectionStep(c, desired));
      i := i + 1;
    }
    assert observed[..i] == observed;
  }

  method ComputeUpdatedPermissions(desired: seq<CollectionDefinition>, observed: ClassMap) returns (nc: seq<Command>)
    ensures nc == UpdatedPermissions(desired, observed)
  {
    nc := [];
    var i := 0;
    while i < |desired|
      invariant 0 <= i <= |desired|
      invariant nc == UpdatedPermissions(desired[..i], observed)
    {
      var collection := desired[i];
      if collection.className in observed {
        var prior := observed[collection.className];
        var newPerms := collection.classLevelPermissions;
        var oldPerms := prior.classLevelPermissions;
        if !PermissionsEqual(newPerms, oldPerms) {
          nc := nc + [UpdateCollectionPermissions(collection.className, newPerms, oldPerms)];
        }
      }
      FlatMapSnoc(desired, i, c => PermissionsStep(c, observed));
      i := i + 1;
    }
    assert desired[..i] == desired;
  }

  method ComputeColumnChanges(className: string, fields: Obj<ColumnDefinition>, prior: Obj<ColumnDefinition>)
    returns (nc: seq<Command>)
    ensures nc == ColumnChanges(className, fields, prior)
  {
    nc := [];
    var i := 0;
    while i < |fields|
      invariant 0 <= i <= |fields|
      invariant nc == ColumnChanges(className, fields[..i], prior)
    {
      var (name, definition) := fields[i];
      var oldField := Get(prior, name);
      if oldField.None? {
        nc := nc + [AddColumn(className, name, definition)];
      } else if oldField.value != definition {
        nc := nc + [UpdateColumn(className, name, definition)];
      }
      FlatMapSnoc(fields, i, f => ColumnStep(className, f, prior));
      i := i + 1;
    }
    assert fields[..i] == fields;
  }

  method ComputeNewColumns(desired: seq<CollectionDefinition>, observed: ClassMap) returns (nc: seq<Command>)
    ensures nc == NewColumns(desired, observed)
  {
    nc := [];
    var i := 0;
    while i < |desired|
      invariant 0 <= i <= |desired|
      invariant nc == NewColumns(desired[..i], observed)
    {
      var collection := desired[i];
      if collection.className in observed {
        var prior := observed[collection.className];
        var changes := ComputeColumnChanges(collection.className, collection.fields, prior.fields);
        nc := nc + changes;
      }
      FlatMapSnoc(desired, i, c => NewColumnsStep(c, observed));
      i := i + 1;
    }
    assert desired[..i] == desired;
  }

  method ComputeColumnDeletions(className: string, fields: Obj<ColumnDefinition>, current: Obj<ColumnDefinition>)
    returns (dc: seq<Command>)
    ensures dc == ColumnDeletions(className, fields, current)
  {
    dc := [];
    var i := 0;
    while i < |fields|
      invariant 0 <= i <= |fields|
      invariant dc == ColumnDeletions(className, fields[..i], current)
    {
      var name := fields[i].0;
      if Get(current, name).None? {
        dc := dc + [DeleteColumn(className, name)];
      }
      FlatMapSnoc(fields, i, f => DeletedColumnStep(className, f, current));
      i := i + 1;
    }
    assert fields[..i] == fields;
  }

  method ComputeDeletedColumns(observed: seq<CollectionDefinition>, desired: ClassMap) returns (dc: seq<Command>)
    ensures dc == DeletedColumns(observed, desired)
  {
    dc := [];
    var i := 0;
    while i < |observed|
      invariant 0 <= i <= |observed|
      invariant dc == DeletedColumns(observed[..i], desired)
    {
      var collection := observed[i];
      if collection.className in desired {
        var newC := desired[collection.className];
        var deletions := ComputeColumnDeletions(collection.className, collection.fields, newC.fields);
        dc := dc + deletions;
      }
      FlatMapSnoc(observed, i, c => DeletedColumnsStep(c, desired));
      i := i + 1;
    }
    assert observed[..i] == observed;
  }

  method ComputeIndexChanges(className: string, indexes: Obj<IndexDefinition>, prior: Obj<IndexDefinition>)
    returns (ni: seq<Command>)
    ensures ni == IndexChanges(className, indexes, prior)
  {
    ni := [];
    var i := 0;
    while i < |indexes|
      invariant 0 <= i <= |indexes|
      invariant ni == IndexChanges(className, indexes[..i], prior)
    {
      var (name, definition) := indexes[i];
      var oldIndex := Get(prior, name);
      if oldIndex.None? {
        ni := ni + [AddIndex(className, name, definition)];
      } else if !SameEntries(oldIndex.value, definition) {
        ni := ni + [UpdateIndex(className, name, definition)];
      }
      FlatMapSnoc(indexes, i, x => IndexStep(className, x, prior));
      i := i + 1;
    }
    assert indexes[..i] == indexes;
  }

  method ComputeNewIndexes(desired: seq<CollectionDefinition>, observed: ClassMap) returns (ni: seq<Command>)
    ensures ni == NewIndexes(desired, observed)
  {
    ni := [];
    var i := 0;
    while i < |desired|
      invariant 0 <= i <= |desired|
      invariant ni == NewIndexes(desired[..i], observed)
    {
      var collection := desired[i];
      if collection.className in observed {
        var prior := observed[collection.className];
        var changes := ComputeIndexChanges(collection.className, OrEmpty(collection.indexes), OrEmpty(prior.indexes));
        ni := ni + changes;
      }
      FlatMapSnoc(desired, i, c => NewIndexesStep(c, observed));
      i := i + 1;
    }
    assert desired[..i] == desired;
  }

  method ComputeIndexDeletions(className: string, indexes: Obj<IndexDefinition>, current: Obj<IndexDefinition>)
    returns (di: seq<Command>)
    ensures di == IndexDeletions(className, indexes, current)
  {
    di := [];
    var i := 0;
    while i < |indexes|
      invariant 0 <= i <= |indexes|
      invariant di == IndexDeletions(className, indexes[..i], current)
    {
      var name := indexes[i].0;
      if Get(current, name).None? {
        di := di + [DeleteIndex(className, name)];
      }
      FlatMapSnoc(indexes, i, x => DeletedIndexStep(className, x, current));
      i := i + 1;
    }
    assert indexes[..i] == indexes;
  }

  method ComputeDeletedIndexes(observed: seq<CollectionDefinition>, desired: ClassMap) returns (di: seq<Command>)
    ensures di == DeletedIndexes(observed, desired)
  {
    di := [];
    var i := 0;
    while i < |observed|
      invariant 0 <= i <= |observed|
      invariant di == DeletedIndexes(observed[..i], desired)
    {
      var collection := observed[i];
      if collection.className in desired {
        var newC := desired[collection.className];
        var deletions := ComputeIndexDeletions(collection.className, OrEmpty(collection.indexes), OrEmpty(newC.indexes));
        di := di + deletions;
      }
      FlatMapSnoc(observed, i, c => DeletedIndexesStep(c, desired));
      i := i + 1;
    }
    assert observed[..i] == observed;
  }

  /** `planCollections`. */
  method PlanCollections(desired: seq<CollectionDefinition>, observed: seq<CollectionDefinition>)
    returns (commands: seq<Command>)
    ensures commands == CollectionCommands(desired, observed)
  {
    var oldColMap := ClassMapOf(observed);
    var newColMap := ClassMapOf(desired);
    var newCollections := ComputeNewCollections(desired, oldColMap);
    var deletedCollections := ComputeDeletedCollections(observed, newColMap);
    var updatedPermissions := ComputeUpdatedPermissions(desired, oldColMap);
    var newColumns := ComputeNewColumns(desired, oldColMap);
    var deletedColumns := ComputeDeletedColumns(observed, newColMap);
    var newIndexes := ComputeNewIndexes(desired, oldColMap);
    var deletedIndexes := ComputeDeletedIndexes(observed, newColMap);
    commands := newCollections + deletedCollections + updatedPermissions + deletedIndexes
                + deletedColumns + newColumns + newIndexes;
  }

  method ComputeNewFunctions(desired: seq<FunctionDefinition>, observed: map<string, FunctionDefinition>,
                             hookUrl: Option<string>) returns (newFuncs: seq<Command>)
    ensures newFuncs == NewFunctions(desired, observed, hookUrl)
  {
    newFuncs := [];
    var i := 0;
    while i < |desired|
      invariant 0 <= i <= |desired|
      invariant newFuncs == NewFunctions(desired[..i], observed, hookUrl)
    {
      var func := desired[i];
      var actualFunc := func;
      if Truthy(hookUrl) {
        actualFunc := actualFunc.(url := hookUrl.value + func.url);
      }
      if actualFunc.functionName !in observed {
        newFuncs := newFuncs + [AddFunction(actualFunc)];
      } else if observed[actualFunc.functionName].url != actualFunc.url {
        newFuncs := newFuncs + [UpdateFunction(actualFunc)];
      }
      FlatMapSnoc(desired, i, f => NewFunctionStep(f, observed, hookUrl));
      i := i + 1;
    }
    assert desired[..i] == desired;
  }

  method ComputeDeletedFunctions(observed: seq<FunctionDefinition>, desired: map<string, FunctionDefinition>)
    returns (delFuncs: seq<Command>)
    ensures delFuncs == DeletedFunctions(observed, desired)
  {
    delFuncs := [];
    var i := 0;
    while i < |observed|
      invariant 0 <= i <= |observed|
      invariant delFuncs == DeletedFunctions(observed[..i], desired)
    {
      var func := observed[i];
      if func.functionName !in desired {
        delFuncs := delFuncs + [DeleteFunction(func.functionName)];
      }
      FlatMapSnoc(observed, i, f => DeletedFunctionStep(f, desired));
      i := i + 1;
    }
    assert observed[..i] == observed;
  }

  /** `planFunctions`. */
  method PlanFunctions(desired: seq<FunctionDefinition>, observed: seq<FunctionDefinition>, hookUrl: Option<string>)
    returns (commands: seq<Command>)
    ensures commands == FunctionCommands(desired, observed, hookUrl)
  {
    var newFunctions := ComputeNewFunctions(desired, FunctionMapOf(observed), hookUrl);
    var deletedFunctions := ComputeDeletedFunctions(observed, FunctionMapOf(desired));
    commands := deletedFunctions + newFunctions;
  }

  method ComputeNewTriggers(desired: seq<TriggerDefinition>, observed: map<string, TriggerDefinition>,
                            hookUrl: Option<string>) returns (newTriggers: seq<Command>)
    ensures newTriggers == NewTriggers(desired, observed, hookUrl)
  {
    newTriggers := [];
    var i := 0;
    while i < |desired|
      invariant 0 <= i <= |desired|
      invariant newTriggers == NewTriggers(desired[..i], observed, hookUrl)
    {
      var trigger := desired[i];
      var actualTrigger := trigger;
      if Truthy(hookUrl) {
        actualTrigger := actualTrigger.(url := hookUrl.value + trigger.url);
      }
      var key := TriggerKey(actualTrigger);
      if key !in observed {
        newTriggers := newTriggers + [AddTrigger(actualTrigger)];
      } else if observed[key].url != actualTrigger.url {
        newTriggers := newTriggers + [UpdateTrigger(actualTrigger)];
      }
      FlatMapSnoc(desired, i, t => NewTriggerStep(t, observed, hookUrl));
      i := i + 1;
    }
    assert desired[..i] == desired;
  }

  method ComputeDeletedTriggers(observed: seq<TriggerDefinition>, desired: map<string, TriggerDefinition>)
    returns (delTriggers: seq<Command>)
    ensures delTriggers == DeletedTriggers(observed, desired)
  {
    delTriggers := [];
    var i := 0;
    while i < |observed|
      invariant 0 <= i <= |observed|
      invariant delTriggers == DeletedTriggers(observed[..i], desired)
    {
      var trigger := observed[i];
      if TriggerKey(trigger) !in desired {
        delTriggers := delTriggers + [DeleteTrigger(trigger.className, trigger.triggerName)];
      }
      FlatMapSnoc(observed, i, t => DeletedTriggerStep(t, desired));
      i := i + 1;
    }
    assert observed[..i] == observed;
  }

  /** `planTriggers`. */
  method PlanTriggers(desired: seq<TriggerDefinition>, observed: seq<TriggerDefinition>, hookUrl: Option<string>)
    returns (commands: seq<Command>)
    ensures commands == TriggerCommands(desired, observed, hookUrl)
  {
    var newTriggers := ComputeNewTriggers(desired, TriggerMapOf(observed), hookUrl);
    var deletedTriggers := ComputeDeletedTriggers(observed, TriggerMapOf(desired));
    commands := deletedTriggers + newTriggers;
  }

  /** `plan`. */
  method Plan(desired: Schema, observed: Schema, hookUrl: Option<string>) returns (commands: seq<Command>)
    ensures commands == Planned(desired, observed, hookUrl)
  {
    var collections := PlanCollections(desired.collections, observed.collections);
    var functions := PlanFunctions(desired.functions, observed.functions, hookUrl);
    var triggers := PlanTriggers(desired.triggers, observed.triggers, hookUrl);
    commands := collections + functions + triggers;
  }

  // ---------------------------------------------------------------------------
  // Emission order

  /** The position of a command's group in the plan. */
  function Group(c: Command): nat {
    match c
    case AddCollection(_) => 0
    case DeleteCollection(_) => 1
    case UpdateCollectionPermissions(_, _, _) => 2
    case DeleteIndex(_, _) => 3
    case DeleteColumn(_, _) => 4
    case AddColumn(_, _, _) => 5
    case UpdateColumn(_, _, _) => 5
    case AddIndex(_, _, _) => 6
    case UpdateIndex(_, _, _) => 6
    case DeleteFunction(_) => 7
    case AddFunction(_) => 8
    case UpdateFunction(_) => 8
    case DeleteTrigger(_, _) => 9
    case AddTrigger(_) => 10
    case UpdateTrigger(_) => 10
  }

  lemma NewCollectionsGroup(desired: seq<CollectionDefinition>, observed: ClassMap)
    ensures RanksWithin(NewCollections(desired, observed), Group, 0, 0)
  {
    forall x | x in NewCollections(desired, observed) ensures Group(x) == 0 {
      FlatMapMembers(desired, c => NewCollectionStep(c, observed), x);
    }
  }

  lemma DeletedCollectionsGroup(observed: seq<CollectionDefinition>, desired: ClassMap)
    ensures RanksWithin(DeletedCollections(observed, desired), Group, 1, 1)
  {
    forall x | x in DeletedCollections(observed, desired) ensures Group(x) == 1 {
      FlatMapMembers(observed, c => DeletedCollectionStep(c, desired), x);
    }
  }

  lemma UpdatedPermissionsGroup(desired: seq<CollectionDefinition>, observed: ClassMap)
    ensures RanksWithin(UpdatedPermissions(desired, observed), Group, 2, 2)
  {
    forall x | x in UpdatedPermissions(desired, observed) ensures Group(x) == 2 {
      FlatMapMembers(desired, c => PermissionsStep(c, observed), x);
    }
  }

  lemma IndexDeletionsGroup(className: string, indexes: seq<(string, IndexDefinition)>, current: Obj<IndexDefinition>)
    ensures RanksWithin(IndexDeletions(className, indexes, current), Group, 3, 3)
  {
    forall x | x in IndexDeletions(className, indexes, current) ensures Group(x) == 3 {
      FlatMapMembers(indexes, i => DeletedIndexStep(className, i, current), x);
    }
  }

  lemma DeletedIndexesGroup(observed: seq<CollectionDefinition>, desired: ClassMap)
    ensures RanksWithin(DeletedIndexes(observed, desired), Group, 3, 3)
  {
    forall x | x in DeletedIndexes(observed, desired) ensures Group(x) == 3 {
      FlatMapMembers(observed, c => DeletedIndexesStep(c, desired), x);
      var c :| c in observed && x in DeletedIndexesStep(c, desired);
      IndexDeletionsGroup(c.className, OrEmpty(c.indexes), OrEmpty(desired[c.className].indexes));
    }
  }

  lemma DeletedColumnsGroup(observed: seq<CollectionDefinition>, desired: ClassMap)
    ensures RanksWithin(DeletedColumns(observed, desired), Group, 4, 4)
  {
    forall x | x in DeletedColumns(observed, desired) ensures Group(x) == 4 {
      FlatMapMembers(observed, c => DeletedColumnsStep(c, desired), x);
      var c :| c in observed && x in DeletedColumnsStep(c, desired);
      assert c.className in desired;
      ColumnDeletionsGroup(c.className, c.fields, desired[c.className].fields);
    }
  }

  lemma ColumnDeletionsGroup(className: string, fields: seq<(string, ColumnDefinition)>, current: Obj<ColumnDefinition>)
    ensures RanksWithin(ColumnDeletions(className, fields, current), Group, 4, 4)
  {
    forall x | x in ColumnDeletions(className, fields, current) ensures Group(x) == 4 {
      FlatMapMembers(fields, f => DeletedColumnStep(className, f, current), x);
    }
  }

  lemma ColumnChangesGroup(className: string, fields: seq<(string, ColumnDefinition)>, prior: Obj<ColumnDefinition>)
    ensures RanksWithin(ColumnChanges(className, fields, prior), Group, 5, 5)
  {
    forall x | x in ColumnChanges(className, fields, prior) ensures Group(x) == 5 {
      FlatMapMembers(fields, f => ColumnStep(className, f, prior), x);
    }
  }

  lemma NewColumnsGroup(desired: seq<CollectionDefinition>, observed: ClassMap)
    ensures RanksWithin(NewColumns(desired, observed), Group, 5, 5)
  {
    forall x | x in NewColumns(desired, observed) ensures Group(x) == 5 {
      FlatMapMembers(desired, c => NewColumnsStep(c, observed), x);
      var c :| c in desired && x in NewColumnsStep(c, observed);
      ColumnChangesGroup(c.className, c.fields, observed[c.className].fields);
    }
  }

  lemma IndexChangesGroup(className: string, indexes: seq<(string, IndexDefinition)>, prior: Obj<IndexDefinition>)
    ensures RanksWithin(IndexChanges(className, indexes, prior), Group, 6, 6)
  {
    forall x | x in IndexChanges(className, indexes, prior) ensures Group(x) == 6 {
      FlatMapMembers(indexes, i => IndexStep(className, i, prior), x);
    }
  }

  lemma NewIndexesGroup(desired: seq<CollectionDefinition>, observed: ClassMap)
    ensures RanksWithin(NewIndexes(desired, observed), Group, 6, 6)
  {
    forall x | x in NewIndexes(desired, observed) ensures Group(x) == 6 {
      FlatMapMembers(desired, c => NewIndexesStep(c, observed), x);
      var c :| c in desired && x in NewIndexesStep(c, observed);
      IndexChangesGroup(c.className, OrEmpty(c.indexes), OrEmpty(observed[c.className].indexes));
    }
  }

  lemma DeletedFunctionsGroup(observed: seq<FunctionDefinition>, desired: map<string, FunctionDefinition>)
    ensures RanksWithin(DeletedFunctions(observed, desired), Group, 7, 7)
  {
    forall x | x in DeletedFunctions(observed, desired) ensures Group(x) == 7 {
      FlatMapMembers(observed, f => DeletedFunctionStep(f, desired), x);
    }
  }

  lemma NewFunctionsGroup(desired: seq<FunctionDefinition>, observed: map<string, FunctionDefinition>,
                          hookUrl: Option<string>)
    ensures RanksWithin(NewFunctions(desired, observed, hookUrl), Group, 8, 8)
  {
    forall x | x in NewFunctions(desired, observed, hookUrl) ensures Group(x) == 8 {
      FlatMapMembers(desired, f => NewFunctionStep(f, observed, hookUrl), x);
    }
  }

  lemma DeletedTriggersGroup(observed: seq<TriggerDefinition>, desired: map<string, TriggerDefinition>)
    ensures RanksWithin(DeletedTriggers(observed, desired), Group, 9, 9)
  {
    forall x | x in DeletedTriggers(observed, desired) ensures Group(x) == 9 {
      FlatMapMembers(observed, t => DeletedTriggerStep(t, desired), x);
    }
  }

  lemma NewTriggersGroup(desired: seq<TriggerDefinition>, observed: map<string, TriggerDefinition>,
                         hookUrl: Option<string>)
    ensures RanksWithin(NewTriggers(desired, observed, hookUrl), Group, 10, 10)
  {
    forall x | x in NewTriggers(desired, observed, hookUrl) ensures Group(x) == 10 {
      FlatMapMembers(desired, t => NewTriggerStep(t, observed, hookUrl), x);
    }
  }

  /** Collection commands come in the order AddCollection, DeleteCollection,
      UpdateCollectionPermissions, DeleteIndex, DeleteColumn, Add/UpdateColumn,
      Add/UpdateIndex. */
  lemma CollectionCommandsOrdered(desired: seq<CollectionDefinition>, observed: seq<CollectionDefinition>)
    ensures SortedBy(CollectionCommands(desired, observed), Group) && RanksWithin(CollectionCommands(desired, observed), Group, 0, 6)
  {
    var om := ClassMapOf(observed);
    var dm := ClassMapOf(desired);
    var b0 := NewCollections(desired, om);
    var b1 := DeletedCollections(observed, dm);
    var b2 := UpdatedPermissions(desired, om);
    var b3 := DeletedIndexes(observed, dm);
    var b4 := DeletedColumns(observed, dm);
    var b5 := NewColumns(desired, om);
    var b6 := NewIndexes(desired, om);
    NewCollectionsGroup(desired, om);
    DeletedCollectionsGroup(observed, dm);
    UpdatedPermissionsGroup(desired, om);
    DeletedIndexesGroup(observed, dm);
    DeletedColumnsGroup(observed, dm);
    NewColumnsGroup(desired, om);
    NewIndexesGroup(desired, om);
    SortedBySingleRank(b0, Group, 0);
    SortedBySingleRank(b1, Group, 1);
    SortedBySingleRank(b2, Group, 2);
    SortedBySingleRank(b3, Group, 3);
    SortedBySingleRank(b4, Group, 4);
    SortedBySingleRank(b5, Group, 5);
    SortedBySingleRank(b6, Group, 6);
    SortedByAppend(b0, b1, Group, 0, 1, 1);
    SortedByAppend(b0 + b1, b2, Group, 0, 2, 2);
    SortedByAppend(b0 + b1 + b2, b3, Group, 0, 3, 3);
    SortedByAppend(b0 + b1 + b2 + b3, b4, Group, 0, 4, 4);
    SortedByAppend(b0 + b1 + b2 + b3 + b4, b5, Group, 0, 5, 5);
    SortedByAppend(b0 + b1 + b2 + b3 + b4 + b5, b6, Group, 0, 6, 6);
  }

  /** Function deletions all come before function additions and updates. */
  lemma FunctionCommandsOrdered(desired: seq<FunctionDefinition>, observed: seq<FunctionDefinition>,
                                hookUrl: Option<string>)
    ensures SortedBy(FunctionCommands(desired, observed, hookUrl), Group) && RanksWithin(FunctionCommands(desired, observed, hookUrl), Group, 7, 8)
  {
    var deleted := DeletedFunctions(observed, FunctionMapOf(desired));
    var added := NewFunctions(desired, FunctionMapOf(observed), hookUrl);
    DeletedFunctionsGroup(observed, FunctionMapOf(desired));
    NewFunctionsGroup(desired, FunctionMapOf(observed), hookUrl);
    SortedBySingleRank(deleted, Group, 7);
    SortedBySingleRank(added, Group, 8);
    SortedByAppend(deleted, added, Group, 7, 8, 8);
  }

  /** Trigger deletions all come before trigger additions and updates. */
  lemma TriggerCommandsOrdered(desired: seq<TriggerDefinition>, observed: seq<TriggerDefinition>,
                               hookUrl: Option<string>)
    ensures SortedBy(TriggerCommands(desired, observed, hookUrl), Group) && RanksWithin(TriggerCommands(desired, observed, hookUrl), Group, 9, 10)
  {
    var deleted := DeletedTriggers(observed, TriggerMapOf(desired));
    var added := NewTriggers(desired, TriggerMapOf(observed), hookUrl);
    DeletedTriggersGroup(observed, TriggerMapOf(desired));
    NewTriggersGroup(desired, TriggerMapOf(observed), hookUrl);
    SortedBySingleRank(deleted, Group, 9);
    SortedBySingleRank(added, Group, 10);
    SortedByAppend(deleted, added, Group, 9, 10, 10);
  }

  /** The plan lists the collection commands, then the function commands, then the
      trigger commands, each part in its own group order. */
  lemma PlanOrdered(desired: Schema, observed: Schema, hookUrl: Option<string>)
    ensures SortedBy(Planned(desired, observed, hookUrl), Group)
  {
    var c := CollectionCommands(desired.collections, observed.collections);
    var f := FunctionCommands(desired.functions, observed.functions, hookUrl);
    var t := TriggerCommands(desired.triggers, observed.triggers, hookUrl);
    CollectionCommandsOrdered(desired.collections, observed.collections);
    FunctionCommandsOrdered(desired.functions, observed.functions, hookUrl);
    TriggerCommandsOrdered(desired.triggers, observed.triggers, hookUrl);
    SortedByAppend(c, f, Group, 0, 7, 8);
    SortedByAppend(c + f, t, Group, 0, 9, 10);
  }

  // ---------------------------------------------------------------------------
  // What each group contains

  /** AddCollection, carrying the whole definition, exactly for the desired
      collections whose class is not observed. */
  lemma NewCollectionsMember(desired: seq<CollectionDefinition>, observed: ClassMap, col: CollectionDefinition)
    ensures AddCollection(col) in NewCollections(desired, observed) <==> col in desired && col.className !in observed
  {
    FlatMapMembers(desired, c => NewCollectionStep(c, observed), AddCollection(col));
    if col in desired && col.className !in observed {
      assert AddCollection(col) in NewCollectionStep(col, observed);
    }
  }

  /** DeleteCollection exactly for the observed classes that are not desired. */
  lemma DeletedCollectionsMember(observed: seq<CollectionDefinition>, desired: ClassMap, name: string)
    ensures DeleteCollection(name) in DeletedCollections(observed, desired) <==>
      name in ClassNames(observed) && name !in desired
  {
    FlatMapMembers(observed, c => DeletedCollectionStep(c, desired), DeleteCollection(name));
    ClassNamesMember(observed, name);
    if name in ClassNames(observed) && name !in desired {
      var c :| c in observed && c.className == name;
      assert DeleteCollection(name) in DeletedCollectionStep(c, desired);
    }
  }

  /** UpdateCollectionPermissions, carrying the new and the old permissions, exactly for
      the desired collections that are also observed with permissions not equal to
      theirs. */
  lemma UpdatedPermissionsMember(desired: seq<CollectionDefinition>, observed: ClassMap, name: string,
                                 p: Option<CollectionPermissions>, q: Option<CollectionPermissions>)
    ensures UpdateCollectionPermissions(name, p, q) in UpdatedPermissions(desired, observed) <==>
      (exists c :: c in desired && c.className == name && c.classLevelPermissions == p)
      && name in observed && observed[name].classLevelPermissions == q && !PermissionsEqual(p, q)
  {
    var x := UpdateCollectionPermissions(name, p, q);
    FlatMapMembers(desired, c => PermissionsStep(c, observed), x);
    if c :| c in desired && c.className == name && c.classLevelPermissions == p {
      if name in observed && observed[name].classLevelPermissions == q && !PermissionsEqual(p, q) {
        assert x in PermissionsStep(c, observed);
      }
    }
  }

  /** Within one collection: AddColumn for a desired field whose name the observed
      fields lack, UpdateColumn for one whose observed definition differs. */
  lemma ColumnChangesMember(className: string, fields: seq<(string, ColumnDefinition)>, prior: Obj<ColumnDefinition>,
                            name: string, field: string, def: ColumnDefinition)
    ensures AddColumn(name, field, def) in ColumnChanges(className, fields, prior) <==>
      name == className && (field, def) in fields && field !in KeySet(prior)
    ensures UpdateColumn(name, field, def) in ColumnChanges(className, fields, prior) <==>
      name == className && (field, def) in fields && field in KeySet(prior) && Get(prior, field).value != def
  {
    FlatMapMembers(fields, f => ColumnStep(className, f, prior), AddColumn(name, field, def));
    FlatMapMembers(fields, f => ColumnStep(className, f, prior), UpdateColumn(name, field, def));
    if name == className && (field, def) in fields {
      if field !in KeySet(prior) {
        assert AddColumn(name, field, def) in ColumnStep(className, (field, def), prior);
      } else if Get(prior, field).value != def {
        assert UpdateColumn(name, field, def) in ColumnStep(className, (field, def), prior);
      }
    }
  }

  /** Add/UpdateColumn only for collections on both sides, by the rule of
      `ColumnChangesMember`. */
  lemma NewColumnsMember(desired: seq<CollectionDefinition>, observed: ClassMap,
                         name: string, field: string, def: ColumnDefinition)
    ensures AddColumn(name, field, def) in NewColumns(desired, observed) <==>
      name in observed && (exists c :: c in desired && c.className == name && (field, def) in c.fields)
      && field !in KeySet(observed[name].fields)
    ensures UpdateColumn(name, field, def) in NewColumns(desired, observed) <==>
      name in observed && (exists c :: c in desired && c.className == name && (field, def) in c.fields)
      && field in KeySet(observed[name].fields) && Get(observed[name].fields, field).value != def
  {
    var add := AddColumn(name, field, def);
    var update := UpdateColumn(name, field, def);
    FlatMapMembers(desired, c => NewColumnsStep(c, observed), add);
    FlatMapMembers(desired, c => NewColumnsStep(c, observed), update);
    forall c | c in desired
      ensures add in NewColumnsStep(c, observed) <==>
        c.className in observed && name == c.className && (field, def) in c.fields
        && field !in KeySet(observed[c.className].fields)
      ensures update in NewColumnsStep(c, observed) <==>
        c.className in observed && name == c.className && (field, def) in c.fields
        && field in KeySet(observed[c.className].fields) && Get(observed[c.className].fields, field).value != def
    {
      if c.className in observed {
        ColumnChangesMember(c.className, c.fields, observed[c.className].fields, name, field, def);
      }
    }
  }

  /** Within one collection: DeleteColumn for an observed field whose name the desired
      fields lack. */
  lemma ColumnDeletionsMember(className: string, fields: seq<(string, ColumnDefinition)>, current: Obj<ColumnDefinition>,
                              name: string, field: string)
    ensures DeleteColumn(name, field) in ColumnDeletions(className, fields, current) <==>
      name == className && field in KeySet(fields) && field !in KeySet(current)
  {
    var x := DeleteColumn(name, field);
    FlatMapMembers(fields, f => DeletedColumnStep(className, f, current), x);
    KeySetMembers(fields, field);
    if f :| f in fields && x in DeletedColumnStep(className, f, current) {
      KeySetOfEntry(fields, f);
    }
    if name == className && field in KeySet(fields) && field !in KeySet(current) {
      var i :| 0 <= i < |fields| && fields[i].0 == field;
      assert x in DeletedColumnStep(className, fields[i], current);
    }
  }

  /** DeleteColumn only for collections on both sides, by the rule of
      `ColumnDeletionsMember`. */
  lemma DeletedColumnsMember(observed: seq<CollectionDefinition>, desired: ClassMap, name: string, field: string)
    ensures DeleteColumn(name, field) in DeletedColumns(observed, desired) <==>
      name in desired && (exists c :: c in observed && c.className == name && field in KeySet(c.fields))
      && field !in KeySet(desired[name].fields)
  {
    var x := DeleteColumn(name, field);
    FlatMapMembers(observed, c => DeletedColumnsStep(c, desired), x);
    forall c | c in observed
      ensures x in DeletedColumnsStep(c, desired) <==>
        c.className in desired && name == c.className && field in KeySet(c.fields)
        && field !in KeySet(desired[c.className].fields)
    {
      if c.className in desired {
        ColumnDeletionsMember(c.className, c.fields, desired[c.className].fields, name, field);
      }
    }
  }

  /** Within one collection: AddIndex for a desired index whose name the observed
      indexes lack, UpdateIndex for one whose observed definition has other entries. */
  lemma IndexChangesMember(className: string, indexes: seq<(string, IndexDefinition)>, prior: Obj<IndexDefinition>,
                           name: string, index: string, def: IndexDefinition)
    ensures AddIndex(name, index, def) in IndexChanges(className, indexes, prior) <==>
      name == className && (index, def) in indexes && index !in KeySet(prior)
    ensures UpdateIndex(name, index, def) in IndexChanges(className, indexes, prior) <==>
      name == className && (index, def) in indexes && index in KeySet(prior)
      && !SameEntries(Get(prior, index).value, def)
  {
    FlatMapMembers(indexes, i => IndexStep(className, i, prior), AddIndex(name, index, def));
    FlatMapMembers(indexes, i => IndexStep(className, i, prior), UpdateIndex(name, index, def));
    if name == className && (index, def) in indexes {
      if index !in KeySet(prior) {
        assert AddIndex(name, index, def) in IndexStep(className, (index, def), prior);
      } else if !SameEntries(Get(prior, index).value, def) {
        assert UpdateIndex(name, index, def) in IndexStep(className, (index, def), prior);
      }
    }
  }

  /** Add/UpdateIndex only for collections on both sides, a missing index map counting
      as empty. */
  lemma NewIndexesMember(desired: seq<CollectionDefinition>, observed: ClassMap,
                         name: string, index: string, def: IndexDefinition)
    ensures AddIndex(name, index, def) in NewIndexes(desired, observed) <==>
      name in observed && (exists c :: c in desired && c.className == name && (index, def) in OrEmpty(c.indexes))
      && index !in KeySet(OrEmpty(observed[name].indexes))
    ensures UpdateIndex(name, index, def) in NewIndexes(desired, observed) <==>
      name in observed && (exists c :: c in desired && c.className == name && (index, def) in OrEmpty(c.indexes))
      && index in KeySet(OrEmpty(observed[name].indexes))
      && !SameEntries(Get(OrEmpty(observed[name].indexes), index).value, def)
  {
    var add := AddIndex(name, index, def);
    var update := UpdateIndex(name, index, def);
    FlatMapMembers(desired, c => NewIndexesStep(c, observed), add);
    FlatMapMembers(desired, c => NewIndexesStep(c, observed), update);
    forall c | c in desired
      ensures add in NewIndexesStep(c, observed) <==>
        c.className in observed && name == c.className && (index, def) in OrEmpty(c.indexes)
        && index !in KeySet(OrEmpty(observed[c.className].indexes))
      ensures update in NewIndexesStep(c, observed) <==>
        c.className in observed && name == c.className && (index, def) in OrEmpty(c.indexes)
        && index in KeySet(OrEmpty(observed[c.className].indexes))
        && !SameEntries(Get(OrEmpty(observed[c.className].indexes), index).value, def)
    {
      if c.className in observed {
        IndexChangesMember(c.className, OrEmpty(c.indexes), OrEmpty(observed[c.className].indexes), name, index, def);
      }
    }
  }

  /** Within one collection: DeleteIndex for an observed index whose name the desired
      indexes lack. */
  lemma IndexDeletionsMember(className: string, indexes: seq<(string, IndexDefinition)>, current: Obj<IndexDefinition>,
                             name: string, index: string)
    ensures DeleteIndex(name, index) in IndexDeletions(className, indexes, current) <==>
      name == className && index in KeySet(indexes) && index !in KeySet(current)
  {
    var x := DeleteIndex(name, index);
    FlatMapMembers(indexes, i => DeletedIndexStep(className, i, current), x);
    KeySetMembers(indexes, index);
    if i :| i in indexes && x in DeletedIndexStep(className, i, current) {
      KeySetOfEntry(indexes, i);
    }
    if name == className && index in KeySet(indexes) && index !in KeySet(current) {
      var k :| 0 <= k < |indexes| && indexes[k].0 == index;
      assert x in DeletedIndexStep(className, indexes[k], current);
    }
  }

  /** DeleteIndex only for collections on both sides. */
  lemma DeletedIndexesMember(observed: seq<CollectionDefinition>, desired: ClassMap, name: string, index: string)
    ensures DeleteIndex(name, index) in DeletedIndexes(observed, desired) <==>
      name in desired && (exists c :: c in observed && c.className == name && index in KeySet(OrEmpty(c.indexes)))
      && index !in KeySet(OrEmpty(desired[name].indexes))
  {
    var x := DeleteIndex(name, index);
    FlatMapMembers(observed, c => DeletedIndexesStep(c, desired), x);
    forall c | c in observed
      ensures x in DeletedIndexesStep(c, desired) <==>
        c.className in desired && name == c.className && index in KeySet(OrEmpty(c.indexes))
        && index !in KeySet(OrEmpty(desired[c.className].indexes))
    {
      if c.className in desired {
        IndexDeletionsMember(c.className, OrEmpty(c.indexes), OrEmpty(desired[c.className].indexes), name, index);
      }
    }
  }

  /** AddFunction for a (rebased) desired function whose name is not observed,
      UpdateFunction for one whose observed url differs. */
  lemma NewFunctionsMember(desired: seq<FunctionDefinition>, observed: map<string, FunctionDefinition>,
                           hookUrl: Option<string>, f: FunctionDefinition)
    ensures AddFunction(f) in NewFunctions(desired, observed, hookUrl) <==>
      (exists g :: g in desired && RebaseFunction(g, hookUrl) == f) && f.functionName !in observed
    ensures UpdateFunction(f) in NewFunctions(desired, observed, hookUrl) <==>
      (exists g :: g in desired && RebaseFunction(g, hookUrl) == f)
      && f.functionName in observed && observed[f.functionName].url != f.url
  {
    FlatMapMembers(desired, g => NewFunctionStep(g, observed, hookUrl), AddFunction(f));
    FlatMapMembers(desired, g => NewFunctionStep(g, observed, hookUrl), UpdateFunction(f));
    if g :| g in desired && RebaseFunction(g, hookUrl) == f {
      if f.functionName !in observed {
        assert AddFunction(f) in NewFunctionStep(g, observed, hookUrl);
      } else if observed[f.functionName].url != f.url {
        assert UpdateFunction(f) in NewFunctionStep(g, observed, hookUrl);
      }
    }
  }

  /** DeleteFunction exactly for the observed function names that are not desired. */
  lemma DeletedFunctionsMember(observed: seq<FunctionDefinition>, desired: map<string, FunctionDefinition>, name: string)
    ensures DeleteFunction(name) in DeletedFunctions(observed, desired) <==>
      (exists g :: g in observed && g.functionName == name) && name !in desired
  {
    FlatMapMembers(observed, g => DeletedFunctionStep(g, desired), DeleteFunction(name));
    if g :| g in observed && g.functionName == name {
      if name !in desired {
        assert DeleteFunction(name) in DeletedFunctionStep(g, desired);
      }
    }
  }

  /** AddTrigger for a (rebased) desired trigger whose key is not observed,
      UpdateTrigger for one whose observed url differs. */
  lemma NewTriggersMember(desired: seq<TriggerDefinition>, observed: map<string, TriggerDefinition>,
                          hookUrl: Option<string>, t: TriggerDefinition)
    ensures AddTrigger(t) in NewTriggers(desired, observed, hookUrl) <==>
      (exists g :: g in desired && RebaseTrigger(g, hookUrl) == t) && TriggerKey(t) !in observed
    ensures UpdateTrigger(t) in NewTriggers(desired, observed, hookUrl) <==>
      (exists g :: g in desired && RebaseTrigger(g, hookUrl) == t)
      && TriggerKey(t) in observed && observed[TriggerKey(t)].url != t.url
  {
    FlatMapMembers(desired, g => NewTriggerStep(g, observed, hookUrl), AddTrigger(t));
    FlatMapMembers(desired, g => NewTriggerStep(g, observed, hookUrl), UpdateTrigger(t));
    if g :| g in desired && RebaseTrigger(g, hookUrl) == t {
      if TriggerKey(t) !in observed {
        assert AddTrigger(t) in NewTriggerStep(g, observed, hookUrl);
      } else if observed[TriggerKey(t)].url != t.url {
        assert UpdateTrigger(t) in NewTriggerStep(g, observed, hookUrl);
      }
    }
  }

  /** DeleteTrigger exactly for the observed triggers whose key is not desired. */
  lemma DeletedTriggersMember(observed: seq<TriggerDefinition>, desired: map<string, TriggerDefinition>,
                              className: string, triggerName: string)
    ensures DeleteTrigger(className, triggerName) in DeletedTriggers(observed, desired) <==>
      (exists t :: t in observed && t.className == className && t.triggerName == triggerName)
      && triggerName + "-" + className !in desired
  {
    var x := DeleteTrigger(className, triggerName);
    FlatMapMembers(observed, t => DeletedTriggerStep(t, desired), x);
    if t :| t in observed && t.className == className && t.triggerName == triggerName {
      if triggerName + "-" + className !in desired {
        assert x in DeletedTriggerStep(t, desired);
      }
    }
  }

  // ---------------------------------------------------------------------------
  // What the plan contains

  /** A collection command is in the collection part of the plan exactly when it is in
      the group its kind belongs to. */
  lemma CollectionCommandsMember(desired: seq<CollectionDefinition>, observed: seq<CollectionDefinition>, x: Command)
    ensures var om := ClassMapOf(observed);
            var dm := ClassMapOf(desired);
            x in CollectionCommands(desired, observed) <==>
              (Group(x) == 0 && x in NewCollections(desired, om))
              || (Group(x) == 1 && x in DeletedCollections(observed, dm))
              || (Group(x) == 2 && x in UpdatedPermissions(desired, om))
              || (Group(x) == 3 && x in DeletedIndexes(observed, dm))
              || (Group(x) == 4 && x in DeletedColumns(observed, dm))
              || (Group(x) == 5 && x in NewColumns(desired, om))
              || (Group(x) == 6 && x in NewIndexes(desired, om))
  {
    var om := ClassMapOf(observed);
    var dm := ClassMapOf(desired);
    NewCollectionsGroup(desired, om);
    DeletedCollectionsGroup(observed, dm);
    UpdatedPermissionsGroup(desired, om);
    DeletedIndexesGroup(observed, dm);
    DeletedColumnsGroup(observed, dm);
    NewColumnsGroup(desired, om);
    NewIndexesGroup(desired, om);
  }

  lemma FunctionCommandsMember(desired: seq<FunctionDefinition>, observed: seq<FunctionDefinition>,
                               hookUrl: Option<string>, x: Command)
    ensures x in FunctionCommands(desired, observed, hookUrl) <==>
      (Group(x) == 7 && x in DeletedFunctions(observed, FunctionMapOf(desired)))
      || (Group(x) == 8 && x in NewFunctions(desired, FunctionMapOf(observed), hookUrl))
  {
    DeletedFunctionsGroup(observed, FunctionMapOf(desired));
    NewFunctionsGroup(desired, FunctionMapOf(observed), hookUrl);
  }

  lemma TriggerCommandsMember(desired: seq<TriggerDefinition>, observed: seq<TriggerDefinition>,
                              hookUrl: Option<string>, x: Command)
    ensures x in TriggerCommands(desired, observed, hookUrl) <==>
      (Group(x) == 9 && x in DeletedTriggers(observed, TriggerMapOf(desired)))
      || (Group(x) == 10 && x in NewTriggers(desired, TriggerMapOf(observed), hookUrl))
  {
    DeletedTriggersGroup(observed, TriggerMapOf(desired));
    NewTriggersGroup(desired, TriggerMapOf(observed), hookUrl);
  }

  /** A command is in the plan exactly when it is in the part its kind belongs to. */
  lemma PlannedMember(desired: Schema, observed: Schema, hookUrl: Option<string>, x: Command)
    ensures x in Planned(desired, observed, hookUrl) <==>
      (Group(x) <= 6 && x in CollectionCommands(desired.collections, observed.collections))
      || (7 <= Group(x) <= 8 && x in FunctionCommands(desired.functions, observed.functions, hookUrl))
      || (9 <= Group(x) && x in TriggerCommands(desired.triggers, observed.triggers, hookUrl))
  {
    CollectionCommandsOrdered(desired.collections, observed.collections);
    FunctionCommandsOrdered(desired.functions, observed.functions, hookUrl);
    TriggerCommandsOrdered(desired.triggers, observed.triggers, hookUrl);
  }

  /** A hook function command is in the plan exactly when it is among the function
      commands. */
  lemma PlannedFunctionCommand(desired: Schema, observed: Schema, hookUrl: Option<string>, x: Command)
    requires x.AddFunction? || x.UpdateFunction? || x.DeleteFunction?
    ensures x in Planned(desired, observed, hookUrl) <==> x in FunctionCommands(desired.functions, observed.functions, hookUrl)
  {
    PlannedMember(desired, observed, hookUrl, x);
  }

  lemma FunctionCommandsAdded(desired: seq<FunctionDefinition>, observed: seq<FunctionDefinition>,
                              hookUrl: Option<string>, x: Command)
    requires x.AddFunction? || x.UpdateFunction?
    ensures x in FunctionCommands(desired, observed, hookUrl) <==> x in NewFunctions(desired, FunctionMapOf(observed), hookUrl)
  {
    FunctionCommandsMember(desired, observed, hookUrl, x);
  }

  /** A trigger command is in the plan exactly when it is among the trigger commands. */
  lemma PlannedTriggerCommand(desired: Schema, observed: Schema, hookUrl: Option<string>, x: Command)
    requires x.AddTrigger? || x.UpdateTrigger? || x.DeleteTrigger?
    ensures x in Planned(desired, observed, hookUrl) <==> x in TriggerCommands(desired.triggers, observed.triggers, hookUrl)
  {
    PlannedMember(desired, observed, hookUrl, x);
  }

  lemma TriggerCommandsAdded(desired: seq<TriggerDefinition>, observed: seq<TriggerDefinition>,
                             hookUrl: Option<string>, x: Command)
    requires x.AddTrigger? || x.UpdateTrigger?
    ensures x in TriggerCommands(desired, observed, hookUrl) <==> x in NewTriggers(desired, TriggerMapOf(observed), hookUrl)
  {
    TriggerCommandsMember(desired, observed, hookUrl, x);
  }

  /** AddCollection exactly for each desired collection whose class is not observed,
      DeleteCollection exactly for each observed class that is not desired. */
  lemma PlannedCollections(desired: Schema, observed: Schema, hookUrl: Option<string>,
                           c: CollectionDefinition, name: string)
    ensures AddCollection(c) in Planned(desired, observed, hookUrl) <==>
      c in desired.collections && c.className !in ClassNames(observed.collections)
    ensures DeleteCollection(name) in Planned(desired, observed, hookUrl) <==>
      name in ClassNames(observed.collections) && name !in ClassNames(desired.collections)
  {
    PlannedMember(desired, observed, hookUrl, AddCollection(c));
    PlannedMember(desired, observed, hookUrl, DeleteCollection(name));
    CollectionCommandsMember(desired.collections, observed.collections, AddCollection(c));
    CollectionCommandsMember(desired.collections, observed.collections, DeleteCollection(name));
    ByClassNameMap(observed.collections, c.className);
    ByClassNameMap(desired.collections, name);
    NewCollectionsMember(desired.collections, ClassMapOf(observed.collections), c);
    DeletedCollectionsMember(observed.collections, ClassMapOf(desired.collections), name);
  }

  /** For a class on both sides, UpdateCollectionPermissions with the desired and the
      observed permissions exactly when they are not equal. */
  lemma PlannedPermissions(desired: Schema, observed: Schema, hookUrl: Option<string>,
                           name: string, p: Option<CollectionPermissions>, q: Option<CollectionPermissions>)
    ensures UpdateCollectionPermissions(name, p, q) in Planned(desired, observed, hookUrl) <==>
      (exists c :: c in desired.collections && c.className == name && c.classLevelPermissions == p)
      && name in ClassMapOf(observed.collections)
      && ClassMapOf(observed.collections)[name].classLevelPermissions == q && !PermissionsEqual(p, q)
  {
    var x := UpdateCollectionPermissions(name, p, q);
    var updated := UpdatedPermissions(desired.collections, ClassMapOf(observed.collections));
    assert x in Planned(desired, observed, hookUrl) <==> x in updated by {
      PlannedMember(desired, observed, hookUrl, x);
      CollectionCommandsMember(desired.collections, observed.collections, x);
    }
    UpdatedPermissionsMember(desired.collections, ClassMapOf(observed.collections), name, p, q);
  }

  /** For a class on both sides, AddColumn for a desired field the observed class
      lacks. */
  lemma PlannedColumnAdditions(desired: Schema, observed: Schema, hookUrl: Option<string>,
                               name: string, field: string, def: ColumnDefinition)
    ensures var om := ClassMapOf(observed.collections);
      AddColumn(name, field, def) in Planned(desired, observed, hookUrl) <==>
        name in om && (exists c :: c in desired.collections && c.className == name && (field, def) in c.fields)
        && field !in KeySet(om[name].fields)
  {
    PlannedMember(desired, observed, hookUrl, AddColumn(name, field, def));
    CollectionCommandsMember(desired.collections, observed.collections, AddColumn(name, field, def));
    NewColumnsMember(desired.collections, ClassMapOf(observed.collections), name, field, def);
  }

  /** For a class on both sides, UpdateColumn for a desired field the observed class
      defines differently. */
  lemma PlannedColumnUpdates(desired: Schema, observed: Schema, hookUrl: Option<string>,
                             name: string, field: string, def: ColumnDefinition)
    ensures var om := ClassMapOf(observed.collections);
      UpdateColumn(name, field, def) in Planned(desired, observed, hookUrl) <==>
        name in om && (exists c :: c in desired.collections && c.className == name && (field, def) in c.fields)
        && field in KeySet(om[name].fields) && Get(om[name].fields, field).value != def
  {
    PlannedMember(desired, observed, hookUrl, UpdateColumn(name, field, def));
    CollectionCommandsMember(desired.collections, observed.collections, UpdateColumn(name, field, def));
    NewColumnsMember(desired.collections, ClassMapOf(observed.collections), name, field, def);
  }

  /** For a class on both sides, DeleteColumn for an observed field the desired class
      lacks. */
  lemma PlannedColumnDeletions(desired: Schema, observed: Schema, hookUrl: Option<string>, name: string, field: string)
    ensures var dm := ClassMapOf(desired.collections);
      DeleteColumn(name, field) in Planned(desired, observed, hookUrl) <==>
        name in dm && (exists c :: c in observed.collections && c.className == name && field in KeySet(c.fields))
        && field !in KeySet(dm[name].fields)
  {
    PlannedMember(desired, observed, hookUrl, DeleteColumn(name, field));
    CollectionCommandsMember(desired.collections, observed.collections, DeleteColumn(name, field));
    DeletedColumnsMember(observed.collections, ClassMapOf(desired.collections), name, field);
  }

  /** For a class on both sides, a missing index map counting as empty, AddIndex for a
      desired index the observed class lacks. */
  lemma PlannedIndexAdditions(desired: Schema, observed: Schema, hookUrl: Option<string>,
                              name: string, index: string, def: IndexDefinition)
    ensures var om := ClassMapOf(observed.collections);
      AddIndex(name, index, def) in Planned(desired, observed, hookUrl) <==>
        name in om && (exists c :: c in desired.collections && c.className == name && (index, def) in OrEmpty(c.indexes))
        && index !in KeySet(OrEmpty(om[name].indexes))
  {
    PlannedMember(desired, observed, hookUrl, AddIndex(name, index, def));
    CollectionCommandsMember(desired.collections, observed.collections, AddIndex(name, index, def));
    NewIndexesMember(desired.collections, ClassMapOf(observed.collections), name, index, def);
  }

  /** For a class on both sides, a missing index map counting as empty, UpdateIndex for
      a desired index whose entries differ from the observed one's. */
  lemma PlannedIndexUpdates(desired: Schema, observed: Schema, hookUrl: Option<string>,
                            name: string, index: string, def: IndexDefinition)
    ensures var om := ClassMapOf(observed.collections);
      UpdateIndex(name, index, def) in Planned(desired, observed, hookUrl) <==>
        name in om && (exists c :: c in desired.collections && c.className == name && (index, def) in OrEmpty(c.indexes))
        && index in KeySet(OrEmpty(om[name].indexes)) && !SameEntries(Get(OrEmpty(om[name].indexes), index).value, def)
  {
    PlannedMember(desired, observed, hookUrl, UpdateIndex(name, index, def));
    CollectionCommandsMember(desired.collections, observed.collections, UpdateIndex(name, index, def));
    NewIndexesMember(desired.collections, ClassMapOf(observed.collections), name, index, def);
  }

  /** For a class on both sides, a missing index map counting as empty, DeleteIndex for
      an observed index the desired class lacks. */
  lemma PlannedIndexDeletions(desired: Schema, observed: Schema, hookUrl: Option<string>, name: string, index: string)
    ensures var dm := ClassMapOf(desired.collections);
      DeleteIndex(name, index) in Planned(desired, observed, hookUrl) <==>
        name in dm && (exists c :: c in observed.collections && c.className == name && index in KeySet(OrEmpty(c.indexes)))
        && index !in KeySet(OrEmpty(dm[name].indexes))
  {
    PlannedMember(desired, observed, hookUrl, DeleteIndex(name, index));
    CollectionCommandsMember(desired.collections, observed.collections, DeleteIndex(name, index));
    DeletedIndexesMember(observed.collections, ClassMapOf(desired.collections), name, index);
  }

  /** Column and index commands only name classes that are both desired and observed:
      an added or a deleted collection gets none. */
  lemma PlannedColumnsOnlyForSharedClasses(desired: Schema, observed: Schema, hookUrl: Option<string>, x: Command)
    requires x in Planned(desired, observed, hookUrl)
    requires x.AddColumn? || x.UpdateColumn? || x.DeleteColumn? || x.AddIndex? || x.UpdateIndex? || x.DeleteIndex?
    ensures x.collection in ClassNames(desired.collections) && x.collection in ClassNames(observed.collections)
  {
    var name := x.collection;
    ByClassNameMap(observed.collections, name);
    ByClassNameMap(desired.collections, name);
    ClassNamesMember(desired.collections, name);
    ClassNamesMember(observed.collections, name);
    match x
    case AddColumn(_, f, d) => PlannedColumnAdditions(desired, observed, hookUrl, name, f, d);
    case UpdateColumn(_, f, d) => PlannedColumnUpdates(desired, observed, hookUrl, name, f, d);
    case DeleteColumn(_, f) =>
      PlannedColumnDeletions(desired, observed, hookUrl, name, f);
      var c :| c in observed.collections && c.className == name && f in KeySet(c.fields);
    case AddIndex(_, i, d) => PlannedIndexAdditions(desired, observed, hookUrl, name, i, d);
    case UpdateIndex(_, i, d) => PlannedIndexUpdates(desired, observed, hookUrl, name, i, d);
    case DeleteIndex(_, i) =>
      PlannedIndexDeletions(desired, observed, hookUrl, name, i);
      var c :| c in observed.collections && c.className == name && i in KeySet(OrEmpty(c.indexes));
  }

  /** AddFunction for each (rebased) desired function whose name is not observed,
      UpdateFunction for each whose observed url differs. */
  lemma PlannedFunctions(desired: Schema, observed: Schema, hookUrl: Option<string>, f: FunctionDefinition)
    ensures AddFunction(f) in Planned(desired, observed, hookUrl) <==>
      (exists g :: g in desired.functions && RebaseFunction(g, hookUrl) == f)
      && f.functionName !in FunctionMapOf(observed.functions)
    ensures UpdateFunction(f) in Planned(desired, observed, hookUrl) <==>
      (exists g :: g in desired.functions && RebaseFunction(g, hookUrl) == f)
      && f.functionName in FunctionMapOf(observed.functions)
      && FunctionMapOf(observed.functions)[f.functionName].url != f.url
  {
    PlannedFunctionCommand(desired, observed, hookUrl, AddFunction(f));
    PlannedFunctionCommand(desired, observed, hookUrl, UpdateFunction(f));
    FunctionCommandsAdded(desired.functions, observed.functions, hookUrl, AddFunction(f));
    FunctionCommandsAdded(desired.functions, observed.functions, hookUrl, UpdateFunction(f));
    NewFunctionsMember(desired.functions, FunctionMapOf(observed.functions), hookUrl, f);
  }

  /** DeleteFunction for each observed function name that is not desired. */
  lemma PlannedFunctionDeletions(desired: Schema, observed: Schema, hookUrl: Option<string>, name: string)
    ensures DeleteFunction(name) in Planned(desired, observed, hookUrl) <==>
      (exists g :: g in observed.functions && g.functionName == name) && name !in FunctionMapOf(desired.functions)
  {
    var x := DeleteFunction(name);
    assert x in Planned(desired, observed, hookUrl) <==> x in FunctionCommands(desired.functions, observed.functions, hookUrl) by {
      PlannedMember(desired, observed, hookUrl, x);
    }
    FunctionCommandsMember(desired.functions, observed.functions, hookUrl, x);
    DeletedFunctionsMember(observed.functions, FunctionMapOf(desired.functions), name);
  }

  /** AddTrigger for each (rebased) desired trigger whose key is not observed,
      UpdateTrigger for each whose observed url differs. */
  lemma PlannedTriggers(desired: Schema, observed: Schema, hookUrl: Option<string>, t: TriggerDefinition)
    ensures AddTrigger(t) in Planned(desired, observed, hookUrl) <==>
      (exists g :: g in desired.triggers && RebaseTrigger(g, hookUrl) == t)
      && TriggerKey(t) !in TriggerMapOf(observed.triggers)
    ensures UpdateTrigger(t) in Planned(desired, observed, hookUrl) <==>
      (exists g :: g in desired.triggers && RebaseTrigger(g, hookUrl) == t)
      && TriggerKey(t) in TriggerMapOf(observed.triggers)
      && TriggerMapOf(observed.triggers)[TriggerKey(t)].url != t.url
  {
    PlannedTriggerCommand(desired, observed, hookUrl, AddTrigger(t));
    PlannedTriggerCommand(desired, observed, hookUrl, UpdateTrigger(t));
    TriggerCommandsAdded(desired.triggers, observed.triggers, hookUrl, AddTrigger(t));
    TriggerCommandsAdded(desired.triggers, observed.triggers, hookUrl, UpdateTrigger(t));
    NewTriggersMember(desired.triggers, TriggerMapOf(observed.triggers), hookUrl, t);
  }

  /** DeleteTrigger for each observed trigger whose key is not desired. */
  lemma PlannedTriggerDeletions(desired: Schema, observed: Schema, hookUrl: Option<string>,
                                className: string, triggerName: string)
    ensures DeleteTrigger(className, triggerName) in Planned(desired, observed, hookUrl) <==>
      (exists g :: g in observed.triggers && g.className == className && g.triggerName == triggerName)
      && triggerName + "-" + className !in TriggerMapOf(desired.triggers)
  {
    PlannedMember(desired, observed, hookUrl, DeleteTrigger(className, triggerName));
    TriggerCommandsMember(desired.triggers, observed.triggers, hookUrl, DeleteTrigger(className, triggerName));
    DeletedTriggersMember(observed.triggers, TriggerMapOf(desired.triggers), className, triggerName);
  }

  // ---------------------------------------------------------------------------
  // Rebasing hook urls

  /** With a truthy `hookUrl`, every function or trigger the plan adds or updates has a
      url that begins with it. */
  lemma PlannedHooksRebased(desired: Schema, observed: Schema, hookUrl: Option<string>, x: Command)
    requires Truthy(hookUrl)
    requires x in Planned(desired, observed, hookUrl)
    ensures (x.AddFunction? || x.UpdateFunction?) ==> StartsWith(x.functionDef.url, hookUrl.value)
    ensures (x.AddTrigger? || x.UpdateTrigger?) ==> StartsWith(x.triggerDef.url, hookUrl.value)
  {
    match x
    case AddFunction(f) =>
      PlannedFunctions(desired, observed, hookUrl, f);
      var g :| g in desired.functions && RebaseFunction(g, hookUrl) == f;
      assert f.url[..|hookUrl.value|] == hookUrl.value;
    case UpdateFunction(f) =>
      PlannedFunctions(desired, observed, hookUrl, f);
      var g :| g in desired.functions && RebaseFunction(g, hookUrl) == f;
      assert f.url[..|hookUrl.value|] == hookUrl.value;
    case AddTrigger(t) =>
      PlannedTriggers(desired, observed, hookUrl, t);
      var g :| g in desired.triggers && RebaseTrigger(g, hookUrl) == t;
      assert t.url[..|hookUrl.value|] == hookUrl.value;
    case UpdateTrigger(t) =>
      PlannedTriggers(desired, observed, hookUrl, t);
      var g :| g in desired.triggers && RebaseTrigger(g, hookUrl) == t;
      assert t.url[..|hookUrl.value|] == hookUrl.value;
    case _ =>
  }

  // ---------------------------------------------------------------------------
  // Trigger keys

  /** Two triggers whose names contain no `-` have the same key exactly when they have
      the same class and the same name. */
  lemma TriggerKeyInjective(a: TriggerDefinition, b: TriggerDefinition)
    requires '-' !in a.triggerName && '-' !in b.triggerName
    ensures TriggerKey(a) == TriggerKey(b) <==> a.className == b.className && a.triggerName == b.triggerName
  {
    if TriggerKey(a) == TriggerKey(b) {
      var k := TriggerKey(a);
      var m, n := |a.triggerName|, |b.triggerName|;
      assert k[m] == '-' && TriggerKey(b)[n] == '-';
      assert m == n;
      assert a.triggerName == k[..m] == b.triggerName;
      assert a.className == k[m + 1..] == b.className;
    }
  }

  /** The keys of triggers of the known kinds identify them. */
  lemma TriggerTypesKeyInjective(a: TriggerDefinition, b: TriggerDefinition)
    requires a.triggerName in TriggerTypes && b.triggerName in TriggerTypes
    ensures TriggerKey(a) == TriggerKey(b) <==> a.className == b.className && a.triggerName == b.triggerName
  {
    NoDashInTriggerType(a.triggerName);
    NoDashInTriggerType(b.triggerName);
    TriggerKeyInjective(a, b);
  }

  lemma NoDashInTriggerType(t: string)
    requires t in TriggerTypes
    ensures '-' !in t
  {
    assert t == TriggerTypes[0] || t == TriggerTypes[1] || t == TriggerTypes[2] || t == TriggerTypes[3];
  }

  // ---------------------------------------------------------------------------
  // Planning a schema against itself

  predicate UniqueFunctionNames(fs: seq<FunctionDefinition>) {
    forall i, j | 0 <= i < j < |fs| :: fs[i].functionName != fs[j].functionName
  }

  predicate UniqueTriggerKeys(ts: seq<TriggerDefinition>) {
    forall i, j | 0 <= i < j < |ts| :: TriggerKey(ts[i]) != TriggerKey(ts[j])
  }

  lemma ColumnChangesNone(className: string, fields: Obj<ColumnDefinition>)
    ensures ColumnChanges(className, fields, fields) == []
  {
    forall f | f in fields ensures ColumnStep(className, f, fields) == [] {
      GetEntry(fields, f.0, f.1);
    }
    FlatMapNone(fields, f => ColumnStep(className, f, fields));
  }

  lemma ColumnDeletionsNone(className: string, fields: Obj<ColumnDefinition>)
    ensures ColumnDeletions(className, fields, fields) == []
  {
    forall f | f in fields ensures DeletedColumnStep(className, f, fields) == [] {
      KeySetOfEntry(fields, f);
    }
    FlatMapNone(fields, f => DeletedColumnStep(className, f, fields));
  }

  lemma IndexChangesNone(className: string, indexes: Obj<IndexDefinition>)
    ensures IndexChanges(className, indexes, indexes) == []
  {
    forall i | i in indexes ensures IndexStep(className, i, indexes) == [] {
      GetEntry(indexes, i.0, i.1);
      SameEntriesReflexive(i.1);
    }
    FlatMapNone(indexes, i => IndexStep(className, i, indexes));
  }

  lemma IndexDeletionsNone(className: string, indexes: Obj<IndexDefinition>)
    ensures IndexDeletions(className, indexes, indexes) == []
  {
    forall i | i in indexes ensures DeletedIndexStep(className, i, indexes) == [] {
      KeySetOfEntry(indexes, i);
    }
    FlatMapNone(indexes, i => DeletedIndexStep(className, i, indexes));
  }

  /** With distinct class names, the collections need no command against themselves. */
  lemma CollectionCommandsOfItself(cs: seq<CollectionDefinition>)
    requires UniqueClassNames(cs)
    ensures CollectionCommands(cs, cs) == []
  {
    var m := ClassMapOf(cs);
    forall c | c in cs ensures c.className in m && m[c.className] == c {
      ClassMapUnique(cs, c);
    }
    forall c | c in cs ensures NewCollectionStep(c, m) == [] && DeletedCollectionStep(c, m) == [] {
      ClassMapUnique(cs, c);
    }
    forall c | c in cs ensures PermissionsStep(c, m) == [] {
      PermissionsEqualReflexive(c.classLevelPermissions);
    }
    forall c | c in cs ensures NewColumnsStep(c, m) == [] && DeletedColumnsStep(c, m) == [] {
      ColumnChangesNone(c.className, c.fields);
      ColumnDeletionsNone(c.className, c.fields);
    }
    forall c | c in cs ensures NewIndexesStep(c, m) == [] && DeletedIndexesStep(c, m) == [] {
      IndexChangesNone(c.className, OrEmpty(c.indexes));
      IndexDeletionsNone(c.className, OrEmpty(c.indexes));
    }
    FlatMapNone(cs, c => NewCollectionStep(c, m));
    FlatMapNone(cs, c => DeletedCollectionStep(c, m));
    FlatMapNone(cs, c => PermissionsStep(c, m));
    FlatMapNone(cs, c => NewColumnsStep(c, m));
    FlatMapNone(cs, c => DeletedColumnsStep(c, m));
    FlatMapNone(cs, c => NewIndexesStep(c, m));
    FlatMapNone(cs, c => DeletedIndexesStep(c, m));
  }

  /** With distinct names and no url prefix, the functions need no command against
      themselves. */
  lemma FunctionCommandsOfItself(fs: seq<FunctionDefinition>, hookUrl: Option<string>)
    requires UniqueFunctionNames(fs) && !Truthy(hookUrl)
    ensures FunctionCommands(fs, fs, hookUrl) == []
  {
    var m := FunctionMapOf(fs);
    forall f | f in fs ensures NewFunctionStep(f, m, hookUrl) == [] && DeletedFunctionStep(f, m) == [] {
      NewMapDistinct(ByFunctionName(fs), f.functionName, f);
    }
    FlatMapNone(fs, f => NewFunctionStep(f, m, hookUrl));
    FlatMapNone(fs, f => DeletedFunctionStep(f, m));
  }

  /** With distinct keys and no url prefix, the triggers need no command against
      themselves. */
  lemma TriggerCommandsOfItself(ts: seq<TriggerDefinition>, hookUrl: Option<string>)
    requires UniqueTriggerKeys(ts) && !Truthy(hookUrl)
    ensures TriggerCommands(ts, ts, hookUrl) == []
  {
    var m := TriggerMapOf(ts);
    forall t | t in ts ensures NewTriggerStep(t, m, hookUrl) == [] && DeletedTriggerStep(t, m) == [] {
      NewMapDistinct(ByTriggerKey(ts), TriggerKey(t), t);
    }
    FlatMapNone(ts, t => NewTriggerStep(t, m, hookUrl));
    FlatMapNone(ts, t => DeletedTriggerStep(t, m));
  }

  /** Every command needs a missing key or an inequality, so a schema with unique
      identities, planned against itself without a url prefix, needs no command. */
  lemma PlanOfItself(s: Schema, hookUrl: Option<string>)
    requires UniqueClassNames(s.collections) && UniqueFunctionNames(s.functions) && UniqueTriggerKeys(s.triggers)
    requires !Truthy(hookUrl)
    ensures Planned(s, s, hookUrl) == []
  {
    CollectionCommandsOfItself(s.collections);
    FunctionCommandsOfItself(s.functions, hookUrl);
    TriggerCommandsOfItself(s.triggers, hookUrl);
  }
}

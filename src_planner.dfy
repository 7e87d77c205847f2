/** The older planner. Collections are matched by class name; a field or an index that
    changed is deleted and added again, there are no permission commands, and
    functions and triggers are replaced when their `path` differs. Its hook commands
    do not exist among the six commands of `SrcCommand`, so they are declared here
    with the names and arguments the planner passes. */
module SrcPlanner {
  import opened JsValues
  import opened SchemaTypes
  import opened SrcCommand

  type ClassMap = map<string, CollectionDefinition>

  function ClassMapOf(cs: seq<CollectionDefinition>): ClassMap {
    NewMap(ByClassName(cs))
  }

  /** A hook function as this planner reads it: it compares an optional `path`. */
  datatype HookFunction = HookFunction(functionName: string, url: string, path: Option<string>)

  datatype HookTrigger = HookTrigger(className: string, triggerName: string, url: string, path: Option<string>)

  datatype HookCommand =
    | AddFunction(functionDef: HookFunction)
    | DeleteFunction(functionName: string)
    | AddTrigger(triggerDef: HookTrigger)
    | DeleteTrigger(className: string, triggerName: string)

  // ---------------------------------------------------------------------------
  // `deepEquals`

  /** Two possibly undefined values are equal when both are undefined, or both are
      defined with the same serialisation; serialisations of values are equal exactly
      when the values are. */
  predicate DeepEquals<T(==)>(a: Option<T>, b: Option<T>) {
    if a.None? || b.None? then a == b else a.value == b.value
  }

  lemma DeepEqualsIsEquality<T>(a: Option<T>, b: Option<T>)
    ensures DeepEquals(a, b) <==> a == b
  {
  }

  // ---------------------------------------------------------------------------
  // Collections

  function NewCollectionStep(c: CollectionDefinition, observed: ClassMap): seq<Command> {
    if c.className !in observed then [AddCollection(c)] else []
  }

  function NewCollections(desired: seq<CollectionDefinition>, observed: ClassMap): seq<Command> {
    FlatMap(desired, c => NewCollectionStep(c, observed))
  }

  function DeletedCollectionStep(c: CollectionDefinition, desired: ClassMap): seq<Command> {
    if c.className !in desired then [DeleteCollection(c.className)] else []
  }

  function DeletedCollections(observed: seq<CollectionDefinition>, desired: ClassMap): seq<Command> {
    FlatMap(observed, c => DeletedCollectionStep(c, desired))
  }

  /** AddColumn for a desired field the other side lacks or defines differently. */
  function ColumnStep(className: string, field: (string, ColumnDefinition), prior: Obj<ColumnDefinition>): seq<Command> {
    var oldField := Get(prior, field.0);
    if oldField.None? || !DeepEquals(oldField, Some(field.1)) then [AddColumn(className, field.0, field.1)] else []
  }

  function ColumnChanges(className: string, fields: seq<(string, ColumnDefinition)>, prior: Obj<ColumnDefinition>): seq<Command> {
    FlatMap(fields, f => ColumnStep(className, f, prior))
  }

  function NewColumnsStep(c: CollectionDefinition, observed: ClassMap): seq<Command> {
    if c.className in observed then ColumnChanges(c.className, c.fields, observed[c.className].fields) else []
  }

  function NewColumns(desired: seq<CollectionDefinition>, observed: ClassMap): seq<Command> {
    FlatMap(desired, c => NewColumnsStep(c, observed))
  }

  /** DeleteColumn for an observed field the desired side lacks or defines differently. */
  function DeletedColumnStep(className: string, field: (string, ColumnDefinition), current: Obj<ColumnDefinition>): seq<Command> {
    var newField := Get(current, field.0);
    if newField.None? || !DeepEquals(newField, Some(field.1)) then [DeleteColumn(className, field.0)] else []
  }

  function ColumnDeletions(className: string, fields: seq<(string, ColumnDefinition)>, current: Obj<ColumnDefinition>): seq<Command> {
    FlatMap(fields, f => DeletedColumnStep(className, f, current))
  }

  function DeletedColumnsStep(c: CollectionDefinition, desired: ClassMap): seq<Command> {
    if c.className in desired then ColumnDeletions(c.className, c.fields, desired[c.className].fields) else []
  }

  function DeletedColumns(observed: seq<CollectionDefinition>, desired: ClassMap): seq<Command> {
    FlatMap(observed, c => DeletedColumnsStep(c, desired))
  }

  /** The definition type makes the index map of a collection required, and this
      planner reads it unguarded; a missing one is read here as empty. */
  function IndexStep(className: string, index: (string, IndexDefinition), prior: Obj<IndexDefinition>): seq<Command> {
    var oldIndex := Get(prior, index.0);
    if oldIndex.None? || !DeepEquals(oldIndex, Some(index.1)) then [AddIndex(className, index.0, index.1)] else []
  }

  function IndexChanges(className: string, indexes: seq<(string, IndexDefinition)>, prior: Obj<IndexDefinition>): seq<Command> {
    FlatMap(indexes, i => IndexStep(className, i, prior))
  }

  function NewIndexesStep(c: CollectionDefinition, observed: ClassMap): seq<Command> {
    if c.className in observed
    then IndexChanges(c.className, OrEmpty(c.indexes), OrEmpty(observed[c.className].indexes))
    else []
  }

  function NewIndexes(desired: seq<CollectionDefinition>, observed: ClassMap): seq<Command> {
    FlatMap(desired, c => NewIndexesStep(c, observed))
  }

  function DeletedIndexStep(className: string, index: (string, IndexDefinition), current: Obj<IndexDefinition>): seq<Command> {
    var newIndex := Get(current, index.0);
    if newIndex.None? || !DeepEquals(newIndex, Some(index.1)) then [DeleteIndex(className, index.0)] else []
  }

  function IndexDeletions(className: string, indexes: seq<(string, IndexDefinition)>, current: Obj<IndexDefinition>): seq<Command> {
    FlatMap(indexes, i => DeletedIndexStep(className, i, current))
  }

  function DeletedIndexesStep(c: CollectionDefinition, desired: ClassMap): seq<Command> {
    if c.className in desired
    then IndexDeletions(c.className, OrEmpty(c.indexes), OrEmpty(desired[c.className].indexes))
    else []
  }

  function DeletedIndexes(observed: seq<CollectionDefinition>, desired: ClassMap): seq<Command> {
    FlatMap(observed, c => DeletedIndexesStep(c, desired))
  }

  /** `planCollections`: deletions of a column or an index come before its addition. */
  function CollectionCommands(desired: seq<CollectionDefinition>, observed: seq<CollectionDefinition>): seq<Command> {
    var om := ClassMapOf(observed);
    var dm := ClassMapOf(desired);
    NewCollections(desired, om) + DeletedCollections(observed, dm) + DeletedColumns(observed, dm)
    + NewColumns(desired, om) + DeletedIndexes(observed, dm) + NewIndexes(desired, om)
  }

  // ---------------------------------------------------------------------------
  // Hooks

  function ByFunctionName(fs: seq<HookFunction>): (r: seq<(string, HookFunction)>)
    ensures |r| == |fs|
    ensures forall i | 0 <= i < |fs| :: r[i] == (fs[i].functionName, fs[i])
  {
    if fs == [] then [] else [(fs[0].functionName, fs[0])] + ByFunctionName(fs[1..])
  }

  function FunctionMapOf(fs: seq<HookFunction>): map<string, HookFunction> {
    NewMap(ByFunctionName(fs))
  }

  function NewFunctionStep(f: HookFunction, observed: map<string, HookFunction>): seq<HookCommand> {
    if f.functionName !in observed || observed[f.functionName].path != f.path then [AddFunction(f)] else []
  }

  function NewFunctions(desired: seq<HookFunction>, observed: map<string, HookFunction>): seq<HookCommand> {
    FlatMap(desired, f => NewFunctionStep(f, observed))
  }

  function DeletedFunctionStep(f: HookFunction, desired: map<string, HookFunction>): seq<HookCommand> {
    if f.functionName !in desired || desired[f.functionName].path != f.path then [DeleteFunction(f.functionName)] else []
  }

  function DeletedFunctions(observed: seq<HookFunction>, desired: map<string, HookFunction>): seq<HookCommand> {
    FlatMap(observed, f => DeletedFunctionStep(f, desired))
  }

  /** `planFunctions`: deletions first, then additions. */
  function FunctionCommands(desired: seq<HookFunction>, observed: seq<HookFunction>): seq<HookCommand> {
    DeletedFunctions(observed, FunctionMapOf(desired)) + NewFunctions(desired, FunctionMapOf(observed))
  }

  /** `${triggerName}-${className}`. */
  function TriggerKey(t: HookTrigger): string {
    t.triggerName + "-" + t.className
  }

  function ByTriggerKey(ts: seq<HookTrigger>): (r: seq<(string, HookTrigger)>)
    ensures |r| == |ts|
    ensures forall i | 0 <= i < |ts| :: r[i] == (TriggerKey(ts[i]), ts[i])
  {
    if ts == [] then [] else [(TriggerKey(ts[0]), ts[0])] + ByTriggerKey(ts[1..])
  }

  function TriggerMapOf(ts: seq<HookTrigger>): map<string, HookTrigger> {
    NewMap(ByTriggerKey(ts))
  }

  function NewTriggerStep(t: HookTrigger, observed: map<string, HookTrigger>): seq<HookCommand> {
    if TriggerKey(t) !in observed || observed[TriggerKey(t)].path != t.path then [AddTrigger(t)] else []
  }

  function NewTriggers(desired: seq<HookTrigger>, observed: map<string, HookTrigger>): seq<HookCommand> {
    FlatMap(desired, t => NewTriggerStep(t, observed))
  }

  function DeletedTriggerStep(t: HookTrigger, desired: map<string, HookTrigger>): seq<HookCommand> {
    if TriggerKey(t) !in desired || desired[TriggerKey(t)].path != t.path
    then [DeleteTrigger(t.className, t.triggerName)]
    else []
  }

  function DeletedTriggers(observed: seq<HookTrigger>, desired: map<string, HookTrigger>): seq<HookCommand> {
    FlatMap(observed, t => DeletedTriggerStep(t, desired))
  }

  /** `planTriggers`: deletions first, then additions. */
  function TriggerCommands(desired: seq<HookTrigger>, observed: seq<HookTrigger>): seq<HookCommand> {
    DeletedTriggers(observed, TriggerMapOf(desired)) + NewTriggers(desired, TriggerMapOf(observed))
  }

  // ---------------------------------------------------------------------------
  // The loops

  method ComputeNewCollections(desired: seq<CollectionDefinition>, observed: ClassMap) returns (nc: seq<Command>)
    ensures nc == NewCollections(desired, observed)
  {
    nc := [];
    var i := 0;
    while i < |desired|
      invariant 0 <= i <= |desired|
      invariant nc == NewCollections(desired[..i], observed)
    {
      var collection := desired[i];
      if collection.className !in observed {
        nc := nc + [AddCollection(collection)];
      }
      FlatMapSnoc(desired, i, c => NewCollectionStep(c, observed));
      i := i + 1;
    }
    assert desired[..i] == desired;
  }

  method ComputeDeletedCollections(observed: seq<CollectionDefinition>, desired: ClassMap) returns (dc: seq<Command>)
    ensures dc == DeletedCollections(observed, desired)
  {
    dc := [];
    var i := 0;
    while i < |observed|
      invariant 0 <= i <= |observed|
      invariant dc == DeletedCollections(observed[..i], desired)
    {
      var collection := observed[i];
      if collection.className !in desired {
        dc := dc + [DeleteCollection(collection.className)];
      }
      FlatMapSnoc(observed, i, c => DeletedCollectionStep(c, desired));
      i := i + 1;
    }
    assert observed[..i] == observed;
  }

  method ComputeColumnChanges(className: string, fields: Obj<ColumnDefinition>, prior: Obj<ColumnDefinition>)
    returns (nc: seq<Command>)
    ensures nc == ColumnChanges(className, fields, prior)
  {
    nc := [];
    var i := 0;
    while i < |fields|
      invariant 0 <= i <= |fields|
      invariant nc == ColumnChanges(className, fields[..i], prior)
    {
      var (name, definition) := fields[i];
      var oldField := Get(prior, name);
      if oldField.None? || !DeepEquals(oldField, Some(definition)) {
        nc := nc + [AddColumn(className, name, definition)];
      }
      FlatMapSnoc(fields, i, f => ColumnStep(className, f, prior));
      i := i + 1;
    }
    assert fields[..i] == fields;
  }

  method ComputeNewColumns(desired: seq<CollectionDefinition>, observed: ClassMap) returns (nc: seq<Command>)
    ensures nc == NewColumns(desired, observed)
  {
    nc := [];
    var i := 0;
    while i < |desired|
      invariant 0 <= i <= |desired|
      invariant nc == NewColumns(desired[..i], observed)
    {
      var collection := desired[i];
      if collection.className in observed {
        var prior := observed[collection.className];
        var changes := ComputeColumnChanges(collection.className, collection.fields, prior.fields);
        nc := nc + changes;
      }
      FlatMapSnoc(desired, i, c => NewColumnsStep(c, observed));
      i := i + 1;
    }
    assert desired[..i] == desired;
  }

  method ComputeColumnDeletions(className: string, fields: Obj<ColumnDefinition>, current: Obj<ColumnDefinition>)
    returns (dc: seq<Command>)
    ensures dc == ColumnDeletions(className, fields, current)
  {
    dc := [];
    var i := 0;
    while i < |fields|
      invariant 0 <= i <= |fields|
      invariant dc == ColumnDeletions(className, fields[..i], current)
    {
      var (name, definition) := fields[i];
      var newField := Get(current, name);
      if newField.None? || !DeepEquals(newField, Some(definition)) {
        dc := dc + [DeleteColumn(className, name)];
      }
      FlatMapSnoc(fields, i, f => DeletedColumnStep(className, f, current));
      i := i + 1;
    }
    assert fields[..i] == fields;
  }

  method ComputeDeletedColumns(observed: seq<CollectionDefinition>, desired: ClassMap) returns (dc: seq<Command>)
    ensures dc == DeletedColumns(observed, desired)
  {
    dc := [];
    var i := 0;
    while i < |observed|
      invariant 0 <= i <= |observed|
      invariant dc == DeletedColumns(observed[..i], desired)
    {
      var collection := observed[i];
      if collection.className in desired {
        var newC := desired[collection.className];
        var deletions := ComputeColumnDeletions(collection.className, collection.fields, newC.fields);
        dc := dc + deletions;
      }
      FlatMapSnoc(observed, i, c => DeletedColumnsStep(c, desired));
      i := i + 1;
    }
    assert observed[..i] == observed;
  }

  method ComputeIndexChanges(className: string, indexes: Obj<IndexDefinition>, prior: Obj<IndexDefinition>)
    returns (ni: seq<Command>)
    ensures ni == IndexChanges(className, indexes, prior)
  {
    ni := [];
    var i := 0;
    while i < |indexes|
      invariant 0 <= i <= |indexes|
      invariant ni == IndexChanges(className, indexes[..i], prior)
    {
      var (name, definition) := indexes[i];
      var oldIndex := Get(prior, name);
      if oldIndex.None? || !DeepEquals(oldIndex, Some(definition)) {
        ni := ni + [AddIndex(className, name, definition)];
      }
      FlatMapSnoc(indexes, i, x => IndexStep(className, x, prior));
      i := i + 1;
    }
    assert indexes[..i] == indexes;
  }

  method ComputeNewIndexes(desired: seq<CollectionDefinition>, observed: ClassMap) returns (ni: seq<Command>)
    ensures ni == NewIndexes(desired, observed)
  {
    ni := [];
    var i := 0;
    while i < |desired|
      invariant 0 <= i <= |desired|
      invariant ni == NewIndexes(desired[..i], observed)
    {
      var collection := desired[i];
      if collection.className in observed {
        var prior := observed[collection.className];
        var changes := ComputeIndexChanges(collection.className, OrEmpty(collection.indexes), OrEmpty(prior.indexes));
        ni := ni + changes;
      }
      FlatMapSnoc(desired, i, c => NewIndexesStep(c, observed));
      i := i + 1;
    }
    assert desired[..i] == desired;
  }

  method ComputeIndexDeletions(className: string, indexes: Obj<IndexDefinition>, current: Obj<IndexDefinition>)
    returns (di: seq<Command>)
    ensures di == IndexDeletions(className, indexes, current)
  {
    di := [];
    var i := 0;
    while i < |indexes|
      invariant 0 <= i <= |indexes|
      invariant di == IndexDeletions(className, indexes[..i], current)
    {
      var (name, definition) := indexes[i];
      var newIndex := Get(current, name);
      if newIndex.None? || !DeepEquals(newIndex, Some(definition)) {
        di := di + [DeleteIndex(className, name)];
      }
      FlatMapSnoc(indexes, i, x => DeletedIndexStep(className, x, current));
      i := i + 1;
    }
    assert indexes[..i] == indexes;
  }

  method ComputeDeletedIndexes(observed: seq<CollectionDefinition>, desired: ClassMap) returns (di: seq<Command>)
    ensures di == DeletedIndexes(observed, desired)
  {
    di := [];
    var i := 0;
    while i < |observed|
      invariant 0 <= i <= |observed|
      invariant di == DeletedIndexes(observed[..i], desired)
    {
      var collection := observed[i];
      if collection.className in desired {
        var newC := desired[collection.className];
        var deletions := ComputeIndexDeletions(collection.className, OrEmpty(collection.indexes), OrEmpty(newC.indexes));
        di := di + deletions;
      }
      FlatMapSnoc(observed, i, c => DeletedIndexesStep(c, desired));
      i := i + 1;
    }
    assert observed[..i] == observed;
  }

  /** `planCollections`. */
  method PlanCollections(desired: seq<CollectionDefinition>, observed: seq<CollectionDefinition>)
    returns (commands: seq<Command>)
    ensures commands == CollectionCommands(desired, observed)
  {
    var oldColMap := ClassMapOf(observed);
    var newColMap := ClassMapOf(desired);
    var newCollections := ComputeNewCollections(desired, oldColMap);
    var deletedCollections := ComputeDeletedCollections(observed, newColMap);
    var newColumns := ComputeNewColumns(desired, oldColMap);
    var deletedColumns := ComputeDeletedColumns(observed, newColMap);
    var newIndexes := ComputeNewIndexes(desired, oldColMap);
    var deletedIndexes := ComputeDeletedIndexes(observed, newColMap);
    commands := newCollections + deletedCollections + deletedColumns + newColumns + deletedIndexes + newIndexes;
  }

  method ComputeNewFunctions(desired: seq<HookFunction>, observed: map<string, HookFunction>)
    returns (newFuncs: seq<HookCommand>)
    ensures newFuncs == NewFunctions(desired, observed)
  {
    newFuncs := [];
    var i := 0;
    while i < |desired|
      invariant 0 <= i <= |desired|
      invariant newFuncs == NewFunctions(desired[..i], observed)
    {
      var func := desired[i];
      if func.functionName !in observed || observed[func.functionName].path != func.path {
        newFuncs := newFuncs + [AddFunction(func)];
      }
      FlatMapSnoc(desired, i, f => NewFunctionStep(f, observed));
      i := i + 1;
    }
    assert desired[..i] == desired;
  }

  method ComputeDeletedFunctions(observed: seq<HookFunction>, desired: map<string, HookFunction>)
    returns (delFuncs: seq<HookCommand>)
    ensures delFuncs == DeletedFunctions(observed, desired)
  {
    delFuncs := [];
    var i := 0;
    while i < |observed|
      invariant 0 <= i <= |observed|
      invariant delFuncs == DeletedFunctions(observed[..i], desired)
    {
      var func := observed[i];
      if func.functionName !in desired || desired[func.functionName].path != func.path {
        delFuncs := delFuncs + [DeleteFunction(func.functionName)];
      }
      FlatMapSnoc(observed, i, f => DeletedFunctionStep(f, desired));
      i := i + 1;
    }
    assert observed[..i] == observed;
  }

  /** `planFunctions`. */
  method PlanFunctions(desired: seq<HookFunction>, observed: seq<HookFunction>) returns (commands: seq<HookCommand>)
    ensures commands == FunctionCommands(desired, observed)
  {
    var newFunctions := ComputeNewFunctions(desired, FunctionMapOf(observed));
    var deletedFunctions := ComputeDeletedFunctions(observed, FunctionMapOf(desired));
    commands := deletedFunctions + newFunctions;
  }

  method ComputeNewTriggers(desired: seq<HookTrigger>, observed: map<string, HookTrigger>)
    returns (newTriggers: seq<HookCommand>)
    ensures newTriggers == NewTriggers(desired, observed)
  {
    newTriggers := [];
    var i := 0;
    while i < |desired|
      invariant 0 <= i <= |desired|
      invariant newTriggers == NewTriggers(desired[..i], observed)
    {
      var trigger := desired[i];
      var key := TriggerKey(trigger);
      if key !in observed || observed[key].path != trigger.path {
        newTriggers := newTriggers + [AddTrigger(trigger)];
      }
      FlatMapSnoc(desired, i, t => NewTriggerStep(t, observed));
      i := i + 1;
    }
    assert desired[..i] == desired;
  }

  method ComputeDeletedTriggers(observed: seq<HookTrigger>, desired: map<string, HookTrigger>)
    returns (delTriggers: seq<HookCommand>)
    ensures delTriggers == DeletedTriggers(observed, desired)
  {
    delTriggers := [];
    var i := 0;
    while i < |observed|
      invariant 0 <= i <= |observed|
      invariant delTriggers == DeletedTriggers(observed[..i], desired)
    {
      var trigger := observed[i];
      var key := TriggerKey(trigger);
      if key !in desired || desired[key].path != trigger.path {
        delTriggers := delTriggers + [DeleteTrigger(trigger.className, trigger.triggerName)];
      }
      FlatMapSnoc(observed, i, t => DeletedTriggerStep(t, desired));
      i := i + 1;
    }
    assert observed[..i] == observed;
  }

  /** `planTriggers`. */
  method PlanTriggers(desired: seq<HookTrigger>, observed: seq<HookTrigger>) returns (commands: seq<HookCommand>)
    ensures commands == TriggerCommands(desired, observed)
  {
    var newTriggers := ComputeNewTriggers(desired, TriggerMapOf(observed));
    var deletedTriggers := ComputeDeletedTriggers(observed, TriggerMapOf(desired));
    commands := deletedTriggers + newTriggers;
  }

  // ---------------------------------------------------------------------------
  // Emission order

  /** The position of a collection command's group in `planCollections`. */
  function Group(c: Command): nat {
    match c
    case AddCollection(_) => 0
    case DeleteCollection(_) => 1
    case DeleteColumn(_, _) => 2
    case AddColumn(_, _, _) => 3
    case DeleteIndex(_, _) => 4
    case AddIndex(_, _, _) => 5
  }

  /** Deletions of hooks come before additions. */
  function HookGroup(c: HookCommand): nat {
    match c
    case DeleteFunction(_) => 0
    case AddFunction(_) => 1
    case DeleteTrigger(_, _) => 0
    case AddTrigger(_) => 1
  }

  lemma NewCollectionsGroup(desired: seq<CollectionDefinition>, observed: ClassMap)
    ensures RanksWithin(NewCollections(desired, observed), Group, 0, 0)
  {
    forall x | x in NewCollections(desired, observed) ensures Group(x) == 0 {
      FlatMapMembers(desired, c => NewCollectionStep(c, observed), x);
    }
  }

  lemma DeletedCollectionsGroup(observed: seq<CollectionDefinition>, desired: ClassMap)
    ensures RanksWithin(DeletedCollections(observed, desired), Group, 1, 1)
  {
    forall x | x in DeletedCollections(observed, desired) ensures Group(x) == 1 {
      FlatMapMembers(observed, c => DeletedCollectionStep(c, desired), x);
    }
  }

  lemma DeletedColumnsGroup(observed: seq<CollectionDefinition>, desired: ClassMap)
    ensures RanksWithin(DeletedColumns(observed, desired), Group, 2, 2)
  {
    forall x | x in DeletedColumns(observed, desired) ensures Group(x) == 2 {
      FlatMapMembers(observed, c => DeletedColumnsStep(c, desired), x);
      var c :| c in observed && x in DeletedColumnsStep(c, desired);
      var current := desired[c.className].fields;
      FlatMapMembers(c.fields, f => DeletedColumnStep(c.className, f, current), x);
    }
  }

  lemma NewColumnsGroup(desired: seq<CollectionDefinition>, observed: ClassMap)
    ensures RanksWithin(NewColumns(desired, observed), Group, 3, 3)
  {
    forall x | x in NewColumns(desired, observed) ensures Group(x) == 3 {
      FlatMapMembers(desired, c => NewColumnsStep(c, observed), x);
      var c :| c in desired && x in NewColumnsStep(c, observed);
      var prior := observed[c.className].fields;
      FlatMapMembers(c.fields, f => ColumnStep(c.className, f, prior), x);
    }
  }

  lemma IndexDeletionsGroup(className: string, indexes: seq<(string, IndexDefinition)>, current: Obj<IndexDefinition>)
    ensures RanksWithin(IndexDeletions(className, indexes, current), Group, 4, 4)
  {
    forall x | x in IndexDeletions(className, indexes, current) ensures Group(x) == 4 {
      FlatMapMembers(indexes, i => DeletedIndexStep(className, i, current), x);
    }
  }

  lemma DeletedIndexesGroup(observed: seq<CollectionDefinition>, desired: ClassMap)
    ensures RanksWithin(DeletedIndexes(observed, desired), Group, 4, 4)
  {
    forall x | x in DeletedIndexes(observed, desired) ensures Group(x) == 4 {
      FlatMapMembers(observed, c => DeletedIndexesStep(c, desired), x);
      var c :| c in observed && x in DeletedIndexesStep(c, desired);
      IndexDeletionsGroup(c.className, OrEmpty(c.indexes), OrEmpty(desired[c.className].indexes));
    }
  }

  lemma IndexChangesGroup(className: string, indexes: seq<(string, IndexDefinition)>, prior: Obj<IndexDefinition>)
    ensures RanksWithin(IndexChanges(className, indexes, prior), Group, 5, 5)
  {
    forall x | x in IndexChanges(className, indexes, prior) ensures Group(x) == 5 {
      FlatMapMembers(indexes, i => IndexStep(className, i, prior), x);
    }
  }

  lemma NewIndexesGroup(desired: seq<CollectionDefinition>, observed: ClassMap)
    ensures RanksWithin(NewIndexes(desired, observed), Group, 5, 5)
  {
    forall x | x in NewIndexes(desired, observed) ensures Group(x) == 5 {
      FlatMapMembers(desired, c => NewIndexesStep(c, observed), x);
      var c :| c in desired && x in NewIndexesStep(c, observed);
      IndexChangesGroup(c.className, OrEmpty(c.indexes), OrEmpty(observed[c.className].indexes));
    }
  }

  /** `planCollections` lists AddCollection, DeleteCollection, DeleteColumn, AddColumn,
      DeleteIndex, AddIndex, in that order. */
  lemma CollectionCommandsOrdered(desired: seq<CollectionDefinition>, observed: seq<CollectionDefinition>)
    ensures SortedBy(CollectionCommands(desired, observed), Group)
  {
    var om := ClassMapOf(observed);
    var dm := ClassMapOf(desired);
    var b0 := NewCollections(desired, om);
    var b1 := DeletedCollections(observed, dm);
    var b2 := DeletedColumns(observed, dm);
    var b3 := NewColumns(desired, om);
    var b4 := DeletedIndexes(observed, dm);
    var b5 := NewIndexes(desired, om);
    NewCollectionsGroup(desired, om);
    DeletedCollectionsGroup(observed, dm);
    DeletedColumnsGroup(observed, dm);
    NewColumnsGroup(desired, om);
    DeletedIndexesGroup(observed, dm);
    NewIndexesGroup(desired, om);
    SortedBySingleRank(b0, Group, 0);
    SortedBySingleRank(b1, Group, 1);
    SortedBySingleRank(b2, Group, 2);
    SortedBySingleRank(b3, Group, 3);
    SortedBySingleRank(b4, Group, 4);
    SortedBySingleRank(b5, Group, 5);
    SortedByAppend(b0, b1, Group, 0, 1, 1);
    SortedByAppend(b0 + b1, b2, Group, 0, 2, 2);
    SortedByAppend(b0 + b1 + b2, b3, Group, 0, 3, 3);
    SortedByAppend(b0 + b1 + b2 + b3, b4, Group, 0, 4, 4);
    SortedByAppend(b0 + b1 + b2 + b3 + b4, b5, Group, 0, 5, 5);
  }

  /** A collection command is in `planCollections` exactly when it is in the group its
      kind belongs to. */
  lemma CollectionCommandsMember(desired: seq<CollectionDefinition>, observed: seq<CollectionDefinition>, x: Command)
    ensures var om := ClassMapOf(observed);
            var dm := ClassMapOf(desired);
            x in CollectionCommands(desired, observed) <==>
              (Group(x) == 0 && x in NewCollections(desired, om))
              || (Group(x) == 1 && x in DeletedCollections(observed, dm))
              || (Group(x) == 2 && x in DeletedColumns(observed, dm))
              || (Group(x) == 3 && x in NewColumns(desired, om))
              || (Group(x) == 4 && x in DeletedIndexes(observed, dm))
              || (Group(x) == 5 && x in NewIndexes(desired, om))
  {
    var om := ClassMapOf(observed);
    var dm := ClassMapOf(desired);
    NewCollectionsGroup(desired, om);
    DeletedCollectionsGroup(observed, dm);
    DeletedColumnsGroup(observed, dm);
    NewColumnsGroup(desired, om);
    DeletedIndexesGroup(observed, dm);
    NewIndexesGroup(desired, om);
  }

  lemma DeletedFunctionsGroup(observed: seq<HookFunction>, desired: map<string, HookFunction>)
    ensures RanksWithin(DeletedFunctions(observed, desired), HookGroup, 0, 0)
  {
    forall x | x in DeletedFunctions(observed, desired) ensures HookGroup(x) == 0 {
      FlatMapMembers(observed, f => DeletedFunctionStep(f, desired), x);
    }
  }

  lemma NewFunctionsGroup(desired: seq<HookFunction>, observed: map<string, HookFunction>)
    ensures RanksWithin(NewFunctions(desired, observed), HookGroup, 1, 1)
  {
    forall x | x in NewFunctions(desired, observed) ensures HookGroup(x) == 1 {
      FlatMapMembers(desired, f => NewFunctionStep(f, observed), x);
    }
  }

  lemma DeletedTriggersGroup(observed: seq<HookTrigger>, desired: map<string, HookTrigger>)
    ensures RanksWithin(DeletedTriggers(observed, desired), HookGroup, 0, 0)
  {
    forall x | x in DeletedTriggers(observed, desired) ensures HookGroup(x) == 0 {
      FlatMapMembers(observed, t => DeletedTriggerStep(t, desired), x);
    }
  }

  lemma NewTriggersGroup(desired: seq<HookTrigger>, observed: map<string, HookTrigger>)
    ensures RanksWithin(NewTriggers(desired, observed), HookGroup, 1, 1)
  {
    forall x | x in NewTriggers(desired, observed) ensures HookGroup(x) == 1 {
      FlatMapMembers(desired, t => NewTriggerStep(t, observed), x);
    }
  }

  /** All function deletions come before all function additions. */
  lemma FunctionCommandsOrdered(desired: seq<HookFunction>, observed: seq<HookFunction>)
    ensures SortedBy(FunctionCommands(desired, observed), HookGroup)
    ensures RanksWithin(FunctionCommands(desired, observed), HookGroup, 0, 1)
  {
    var deleted := DeletedFunctions(observed, FunctionMapOf(desired));
    var added := NewFunctions(desired, FunctionMapOf(observed));
    DeletedFunctionsGroup(observed, FunctionMapOf(desired));
    NewFunctionsGroup(desired, FunctionMapOf(observed));
    SortedBySingleRank(deleted, HookGroup, 0);
    SortedBySingleRank(added, HookGroup, 1);
    SortedByAppend(deleted, added, HookGroup, 0, 1, 1);
  }

  /** All trigger deletions come before all trigger additions. */
  lemma TriggerCommandsOrdered(desired: seq<HookTrigger>, observed: seq<HookTrigger>)
    ensures SortedBy(TriggerCommands(desired, observed), HookGroup)
    ensures RanksWithin(TriggerCommands(desired, observed), HookGroup, 0, 1)
  {
    var deleted := DeletedTriggers(observed, TriggerMapOf(desired));
    var added := NewTriggers(desired, TriggerMapOf(observed));
    DeletedTriggersGroup(observed, TriggerMapOf(desired));
    NewTriggersGroup(desired, TriggerMapOf(observed));
    SortedBySingleRank(deleted, HookGroup, 0);
    SortedBySingleRank(added, HookGroup, 1);
    SortedByAppend(deleted, added, HookGroup, 0, 1, 1);
  }

  // ---------------------------------------------------------------------------
  // What each group contains

  lemma NewCollectionsMember(desired: seq<CollectionDefinition>, observed: ClassMap, col: CollectionDefinition)
    ensures AddCollection(col) in NewCollections(desired, observed) <==> col in desired && col.className !in observed
  {
    FlatMapMembers(desired, c => NewCollectionStep(c, observed), AddCollection(col));
    if col in desired && col.className !in observed {
      assert AddCollection(col) in NewCollectionStep(col, observed);
    }
  }

  lemma DeletedCollectionsMember(observed: seq<CollectionDefinition>, desired: ClassMap, name: string)
    ensures DeleteCollection(name) in DeletedCollections(observed, desired) <==>
      name in ClassNames(observed) && name !in desired
  {
    FlatMapMembers(observed, c => DeletedCollectionStep(c, desired), DeleteCollection(name));
    ClassNamesMember(observed, name);
    if name in ClassNames(observed) && name !in desired {
      var c :| c in observed && c.className == name;
      assert DeleteCollection(name) in DeletedCollectionStep(c, desired);
    }
  }

  lemma ColumnChangesMember(className: string, fields: seq<(string, ColumnDefinition)>, prior: Obj<ColumnDefinition>,
                            name: string, field: string, def: ColumnDefinition)
    ensures AddColumn(name, field, def) in ColumnChanges(className, fields, prior) <==>
      name == className && (field, def) in fields && Get(prior, field) != Some(def)
  {
    FlatMapMembers(fields, f => ColumnStep(className, f, prior), AddColumn(name, field, def));
    if name == className && (field, def) in fields && Get(prior, field) != Some(def) {
      assert AddColumn(name, field, def) in ColumnStep(className, (field, def), prior);
    }
  }

  /** AddColumn for each desired field of a class on both sides whose name the observed
      class lacks or whose observed definition differs. */
  lemma NewColumnsMember(desired: seq<CollectionDefinition>, observed: ClassMap,
                         name: string, field: string, def: ColumnDefinition)
    ensures AddColumn(name, field, def) in NewColumns(desired, observed) <==>
      name in observed && (exists c :: c in desired && c.className == name && (field, def) in c.fields)
      && Get(observed[name].fields, field) != Some(def)
  {
    var x := AddColumn(name, field, def);
    FlatMapMembers(desired, c => NewColumnsStep(c, observed), x);
    forall c | c in desired
      ensures x in NewColumnsStep(c, observed) <==>
        c.className in observed && name == c.className && (field, def) in c.fields
        && Get(observed[c.className].fields, field) != Some(def)
    {
      if c.className in observed {
        ColumnChangesMember(c.className, c.fields, observed[c.className].fields, name, field, def);
      }
    }
  }

  lemma ColumnDeletionsMember(className: string, fields: seq<(string, ColumnDefinition)>, current: Obj<ColumnDefinition>,
                              name: string, field: string)
    ensures DeleteColumn(name, field) in ColumnDeletions(className, fields, current) <==>
      name == className && exists def :: (field, def) in fields && Get(current, field) != Some(def)
  {
    var x := DeleteColumn(name, field);
    FlatMapMembers(fields, f => DeletedColumnStep(className, f, current), x);
    if name == className && exists def :: (field, def) in fields && Get(current, field) != Some(def) {
      var def :| (field, def) in fields && Get(current, field) != Some(def);
      assert x in DeletedColumnStep(className, (field, def), current);
    }
  }

  /** DeleteColumn for each observed field of a class on both sides whose name the
      desired class lacks or whose desired definition differs. */
  lemma DeletedColumnsMember(observed: seq<CollectionDefinition>, desired: ClassMap, name: string, field: string)
    ensures DeleteColumn(name, field) in DeletedColumns(observed, desired) <==>
      name in desired
      && (exists c, def :: c in observed && c.className == name && (field, def) in c.fields
                           && Get(desired[name].fields, field) != Some(def))
  {
    var x := DeleteColumn(name, field);
    FlatMapMembers(observed, c => DeletedColumnsStep(c, desired), x);
    forall c | c in observed
      ensures x in DeletedColumnsStep(c, desired) <==>
        c.className in desired && name == c.className
        && exists def :: (field, def) in c.fields && Get(desired[c.className].fields, field) != Some(def)
    {
      if c.className in desired {
        ColumnDeletionsMember(c.className, c.fields, desired[c.className].fields, name, field);
      }
    }
  }

  lemma IndexChangesMember(className: string, indexes: seq<(string, IndexDefinition)>, prior: Obj<IndexDefinition>,
                           name: string, index: string, def: IndexDefinition)
    ensures AddIndex(name, index, def) in IndexChanges(className, indexes, prior) <==>
      name == className && (index, def) in indexes && Get(prior, index) != Some(def)
  {
    FlatMapMembers(indexes, i => IndexStep(className, i, prior), AddIndex(name, index, def));
    if name == className && (index, def) in indexes && Get(prior, index) != Some(def) {
      assert AddIndex(name, index, def) in IndexStep(className, (index, def), prior);
    }
  }

  /** AddIndex for each desired index of a class on both sides whose name the observed
      class lacks or whose observed definition differs. */
  lemma NewIndexesMember(desired: seq<CollectionDefinition>, observed: ClassMap,
                         name: string, index: string, def: IndexDefinition)
    ensures AddIndex(name, index, def) in NewIndexes(desired, observed) <==>
      name in observed && (exists c :: c in desired && c.className == name && (index, def) in OrEmpty(c.indexes))
      && Get(OrEmpty(observed[name].indexes), index) != Some(def)
  {
    var x := AddIndex(name, index, def);
    FlatMapMembers(desired, c => NewIndexesStep(c, observed), x);
    forall c | c in desired
      ensures x in NewIndexesStep(c, observed) <==>
        c.className in observed && name == c.className && (index, def) in OrEmpty(c.indexes)
        && Get(OrEmpty(observed[c.className].indexes), index) != Some(def)
    {
      if c.className in observed {
        IndexChangesMember(c.className, OrEmpty(c.indexes), OrEmpty(observed[c.className].indexes), name, index, def);
      }
    }
  }

  lemma IndexDeletionsMember(className: string, indexes: seq<(string, IndexDefinition)>, current: Obj<IndexDefinition>,
                             name: string, index: string)
    ensures DeleteIndex(name, index) in IndexDeletions(className, indexes, current) <==>
      name == className && exists def :: (index, def) in indexes && Get(current, index) != Some(def)
  {
    var x := DeleteIndex(name, index);
    FlatMapMembers(indexes, i => DeletedIndexStep(className, i, current), x);
    if name == className && exists def :: (index, def) in indexes && Get(current, index) != Some(def) {
      var def :| (index, def) in indexes && Get(current, index) != Some(def);
      assert x in DeletedIndexStep(className, (index, def), current);
    }
  }

  /** DeleteIndex for each observed index of a class on both sides whose name the
      desired class lacks or whose desired definition differs. */
  lemma DeletedIndexesMember(observed: seq<CollectionDefinition>, desired: ClassMap, name: string, index: string)
    ensures DeleteIndex(name, index) in DeletedIndexes(observed, desired) <==>
      name in desired
      && (exists c, def :: c in observed && c.className == name && (index, def) in OrEmpty(c.indexes)
                           && Get(OrEmpty(desired[name].indexes), index) != Some(def))
  {
    var x := DeleteIndex(name, index);
    FlatMapMembers(observed, c => DeletedIndexesStep(c, desired), x);
    forall c | c in observed
      ensures x in DeletedIndexesStep(c, desired) <==>
        c.className in desired && name == c.className
        && exists def :: (index, def) in OrEmpty(c.indexes) && Get(OrEmpty(desired[c.className].indexes), index) != Some(def)
    {
      if c.className in desired {
        IndexDeletionsMember(c.className, OrEmpty(c.indexes), OrEmpty(desired[c.className].indexes), name, index);
      }
    }
  }

  /** AddFunction for each desired function whose name is not observed or whose
      observed `path` differs. */
  lemma NewFunctionsMember(desired: seq<HookFunction>, observed: map<string, HookFunction>, f: HookFunction)
    ensures AddFunction(f) in NewFunctions(desired, observed) <==>
      f in desired && (f.functionName !in observed || observed[f.functionName].path != f.path)
  {
    FlatMapMembers(desired, g => NewFunctionStep(g, observed), AddFunction(f));
    if f in desired && (f.functionName !in observed || observed[f.functionName].path != f.path) {
      assert AddFunction(f) in NewFunctionStep(f, observed);
    }
  }

  /** DeleteFunction for each observed function whose name is not desired or whose
      desired `path` differs. */
  lemma DeletedFunctionsMember(observed: seq<HookFunction>, desired: map<string, HookFunction>, name: string)
    ensures DeleteFunction(name) in DeletedFunctions(observed, desired) <==>
      exists g :: g in observed && g.functionName == name && (name !in desired || desired[name].path != g.path)
  {
    FlatMapMembers(observed, g => DeletedFunctionStep(g, desired), DeleteFunction(name));
    if g :| g in observed && g.functionName == name && (name !in desired || desired[name].path != g.path) {
      assert DeleteFunction(name) in DeletedFunctionStep(g, desired);
    }
  }

  /** AddTrigger for each desired trigger whose key is not observed or whose observed
      `path` differs. */
  lemma NewTriggersMember(desired: seq<HookTrigger>, observed: map<string, HookTrigger>, t: HookTrigger)
    ensures AddTrigger(t) in NewTriggers(desired, observed) <==>
      t in desired && (TriggerKey(t) !in observed || observed[TriggerKey(t)].path != t.path)
  {
    FlatMapMembers(desired, g => NewTriggerStep(g, observed), AddTrigger(t));
    if t in desired && (TriggerKey(t) !in observed || observed[TriggerKey(t)].path != t.path) {
      assert AddTrigger(t) in NewTriggerStep(t, observed);
    }
  }

  /** DeleteTrigger for each observed trigger whose key is not desired or whose desired
      `path` differs. */
  lemma DeletedTriggersMember(observed: seq<HookTrigger>, desired: map<string, HookTrigger>,
                              className: string, triggerName: string)
    ensures DeleteTrigger(className, triggerName) in DeletedTriggers(observed, desired) <==>
      exists g :: g in observed && g.className == className && g.triggerName == triggerName
                  && (TriggerKey(g) !in desired || desired[TriggerKey(g)].path != g.path)
  {
    var x := DeleteTrigger(className, triggerName);
    FlatMapMembers(observed, g => DeletedTriggerStep(g, desired), x);
    if g :| g in observed && g.className == className && g.triggerName == triggerName
            && (TriggerKey(g) !in desired || desired[TriggerKey(g)].path != g.path) {
      assert x in DeletedTriggerStep(g, desired);
    }
  }

  // ---------------------------------------------------------------------------
  // What `planCollections`, `planFunctions` and `planTriggers` contain

  lemma PlannedCollectionAdditions(desired: seq<CollectionDefinition>, observed: seq<CollectionDefinition>,
                                   col: CollectionDefinition)
    ensures AddCollection(col) in CollectionCommands(desired, observed) <==>
      col in desired && col.className !in ClassNames(observed)
  {
    CollectionCommandsMember(desired, observed, AddCollection(col));
    NewCollectionsMember(desired, ClassMapOf(observed), col);
    ByClassNameMap(observed, col.className);
  }

  lemma PlannedCollectionDeletions(desired: seq<CollectionDefinition>, observed: seq<CollectionDefinition>, name: string)
    ensures DeleteCollection(name) in CollectionCommands(desired, observed) <==>
      name in ClassNames(observed) && name !in ClassNames(desired)
  {
    CollectionCommandsMember(desired, observed, DeleteCollection(name));
    DeletedCollectionsMember(observed, ClassMapOf(desired), name);
    ByClassNameMap(desired, name);
  }

  lemma PlannedColumnAdditions(desired: seq<CollectionDefinition>, observed: seq<CollectionDefinition>,
                               name: string, field: string, def: ColumnDefinition)
    ensures var om := ClassMapOf(observed);
      AddColumn(name, field, def) in CollectionCommands(desired, observed) <==>
        name in om && (exists c :: c in desired && c.className == name && (field, def) in c.fields)
        && Get(om[name].fields, field) != Some(def)
  {
    CollectionCommandsMember(desired, observed, AddColumn(name, field, def));
    NewColumnsMember(desired, ClassMapOf(observed), name, field, def);
  }

  lemma PlannedColumnDeletions(desired: seq<CollectionDefinition>, observed: seq<CollectionDefinition>,
                               name: string, field: string)
    ensures var dm := ClassMapOf(desired);
      DeleteColumn(name, field) in CollectionCommands(desired, observed) <==>
        name in dm
        && (exists c, def :: c in observed && c.className == name && (field, def) in c.fields
                             && Get(dm[name].fields, field) != Some(def))
  {
    CollectionCommandsMember(desired, observed, DeleteColumn(name, field));
    DeletedColumnsMember(observed, ClassMapOf(desired), name, field);
  }

  lemma PlannedIndexAdditions(desired: seq<CollectionDefinition>, observed: seq<CollectionDefinition>,
                              name: string, index: string, def: IndexDefinition)
    ensures var om := ClassMapOf(observed);
      AddIndex(name, index, def) in CollectionCommands(desired, observed) <==>
        name in om && (exists c :: c in desired && c.className == name && (index, def) in OrEmpty(c.indexes))
        && Get(OrEmpty(om[name].indexes), index) != Some(def)
  {
    CollectionCommandsMember(desired, observed, AddIndex(name, index, def));
    NewIndexesMember(desired, ClassMapOf(observed), name, index, def);
  }

  lemma PlannedIndexDeletions(desired: seq<CollectionDefinition>, observed: seq<CollectionDefinition>,
                              name: string, index: string)
    ensures var dm := ClassMapOf(desired);
      DeleteIndex(name, index) in CollectionCommands(desired, observed) <==>
        name in dm
        && (exists c, def :: c in observed && c.className == name && (index, def) in OrEmpty(c.indexes)
                             && Get(OrEmpty(dm[name].indexes), index) != Some(def))
  {
    CollectionCommandsMember(desired, observed, DeleteIndex(name, index));
    DeletedIndexesMember(observed, ClassMapOf(desired), name, index);
  }

  lemma PlannedFunctionAdditions(desired: seq<HookFunction>, observed: seq<HookFunction>, f: HookFunction)
    ensures var om := FunctionMapOf(observed);
      AddFunction(f) in FunctionCommands(desired, observed) <==>
        f in desired && (f.functionName !in om || om[f.functionName].path != f.path)
  {
    NewFunctionsMember(desired, FunctionMapOf(observed), f);
    DeletedFunctionsGroup(observed, FunctionMapOf(desired));
  }

  lemma PlannedFunctionDeletions(desired: seq<HookFunction>, observed: seq<HookFunction>, name: string)
    ensures var dm := FunctionMapOf(desired);
      DeleteFunction(name) in FunctionCommands(desired, observed) <==>
        exists g :: g in observed && g.functionName == name && (name !in dm || dm[name].path != g.path)
  {
    DeletedFunctionsMember(observed, FunctionMapOf(desired), name);
    NewFunctionsGroup(desired, FunctionMapOf(observed));
  }

  lemma PlannedTriggerAdditions(desired: seq<HookTrigger>, observed: seq<HookTrigger>, t: HookTrigger)
    ensures var om := TriggerMapOf(observed);
      AddTrigger(t) in TriggerCommands(desired, observed) <==>
        t in desired && (TriggerKey(t) !in om || om[TriggerKey(t)].path != t.path)
  {
    NewTriggersMember(desired, TriggerMapOf(observed), t);
    DeletedTriggersGroup(observed, TriggerMapOf(desired));
  }

  lemma PlannedTriggerDeletions(desired: seq<HookTrigger>, observed: seq<HookTrigger>,
                                className: string, triggerName: string)
    ensures var dm := TriggerMapOf(desired);
      DeleteTrigger(className, triggerName) in TriggerCommands(desired, observed) <==>
        exists g :: g in observed && g.className == className && g.triggerName == triggerName
                    && (TriggerKey(g) !in dm || dm[TriggerKey(g)].path != g.path)
  {
    DeletedTriggersMember(observed, TriggerMapOf(desired), className, triggerName);
    NewTriggersGroup(desired, TriggerMapOf(observed));
  }

  // ---------------------------------------------------------------------------
  // A changed column, index or hook is deleted before it is added again

  /** A command of a lower group comes before every command of a higher group. */
  lemma CollectionCommandsPrecede(desired: seq<CollectionDefinition>, observed: seq<CollectionDefinition>, a: Command, b: Command)
    requires Group(a) < Group(b)
    ensures Precedes(CollectionCommands(desired, observed), a, b)
  {
    CollectionCommandsOrdered(desired, observed);
    SortedByPrecedes(CollectionCommands(desired, observed), Group, a, b);
  }

  /** A column defined differently on the two sides is deleted and then added with its
      desired definition. */
  lemma ColumnReplaced(desired: seq<CollectionDefinition>, observed: seq<CollectionDefinition>,
                       c: CollectionDefinition, o: CollectionDefinition, field: string,
                       def: ColumnDefinition, prior: ColumnDefinition)
    requires UniqueClassNames(desired) && UniqueClassNames(observed)
    requires c in desired && o in observed && c.className == o.className
    requires (field, def) in c.fields && (field, prior) in o.fields && def != prior
    ensures var cmds := CollectionCommands(desired, observed);
      DeleteColumn(c.className, field) in cmds && AddColumn(c.className, field, def) in cmds
      && Precedes(cmds, DeleteColumn(c.className, field), AddColumn(c.className, field, def))
  {
    CollectionCommandsPrecede(desired, observed, DeleteColumn(c.className, field), AddColumn(c.className, field, def));
    ColumnReplacedAdded(desired, observed, c, o, field, def, prior);
    ColumnReplacedDeleted(desired, observed, c, o, field, def, prior);
  }

  lemma ColumnReplacedAdded(desired: seq<CollectionDefinition>, observed: seq<CollectionDefinition>,
                            c: CollectionDefinition, o: CollectionDefinition, field: string,
                            def: ColumnDefinition, prior: ColumnDefinition)
    requires UniqueClassNames(observed)
    requires c in desired && o in observed && c.className == o.className
    requires (field, def) in c.fields && (field, prior) in o.fields && def != prior
    ensures AddColumn(c.className, field, def) in CollectionCommands(desired, observed)
  {
    var om := ClassMapOf(observed);
    ClassMapUnique(observed, o);
    GetEntry(o.fields, field, prior);
    assert c.className in om && Get(om[c.className].fields, field) != Some(def);
    PlannedColumnAdditions(desired, observed, c.className, field, def);
  }

  lemma ColumnReplacedDeleted(desired: seq<CollectionDefinition>, observed: seq<CollectionDefinition>,
                              c: CollectionDefinition, o: CollectionDefinition, field: string,
                              def: ColumnDefinition, prior: ColumnDefinition)
    requires UniqueClassNames(desired)
    requires c in desired && o in observed && c.className == o.className
    requires (field, def) in c.fields && (field, prior) in o.fields && def != prior
    ensures DeleteColumn(c.className, field) in CollectionCommands(desired, observed)
  {
    var dm := ClassMapOf(desired);
    ClassMapUnique(desired, c);
    GetEntry(c.fields, field, def);
    assert c.className in dm && Get(dm[c.className].fields, field) != Some(prior);
    assert o in observed && o.className == c.className && (field, prior) in o.fields;
    PlannedColumnDeletions(desired, observed, c.className, field);
  }

  /** An index defined differently on the two sides is deleted and then added with its
      desired definition. */
  lemma IndexReplaced(desired: seq<CollectionDefinition>, observed: seq<CollectionDefinition>,
                      c: CollectionDefinition, o: CollectionDefinition, index: string,
                      def: IndexDefinition, prior: IndexDefinition)
    requires UniqueClassNames(desired) && UniqueClassNames(observed)
    requires c in desired && o in observed && c.className == o.className
    requires (index, def) in OrEmpty(c.indexes) && (index, prior) in OrEmpty(o.indexes) && def != prior
    ensures var cmds := CollectionCommands(desired, observed);
      DeleteIndex(c.className, index) in cmds && AddIndex(c.className, index, def) in cmds
      && Precedes(cmds, DeleteIndex(c.className, index), AddIndex(c.className, index, def))
  {
    var name := c.className;
    CollectionCommandsPrecede(desired, observed, DeleteIndex(name, index), AddIndex(name, index, def));
    var om := ClassMapOf(observed);
    var dm := ClassMapOf(desired);
    ClassMapUnique(desired, c);
    ClassMapUnique(observed, o);
    assert name in om && om[name] == o;
    assert name in dm && dm[name] == c;
    GetEntry(OrEmpty(c.indexes), index, def);
    GetEntry(OrEmpty(o.indexes), index, prior);
    assert Get(OrEmpty(om[name].indexes), index) == Some(prior);
    assert Get(OrEmpty(dm[name].indexes), index) == Some(def);
    PlannedIndexAdditions(desired, observed, name, index, def);
    assert AddIndex(name, index, def) in CollectionCommands(desired, observed);
    PlannedIndexDeletions(desired, observed, name, index);
    assert DeleteIndex(name, index) in CollectionCommands(desired, observed);
  }

  predicate UniqueFunctionNames(fs: seq<HookFunction>) {
    forall i, j | 0 <= i < j < |fs| :: fs[i].functionName != fs[j].functionName
  }

  predicate UniqueTriggerKeys(ts: seq<HookTrigger>) {
    forall i, j | 0 <= i < j < |ts| :: TriggerKey(ts[i]) != TriggerKey(ts[j])
  }

  /** A function whose `path` changed is deleted and then added again. */
  lemma FunctionReplaced(desired: seq<HookFunction>, observed: seq<HookFunction>, f: HookFunction, g: HookFunction)
    requires UniqueFunctionNames(desired) && UniqueFunctionNames(observed)
    requires f in desired && g in observed && f.functionName == g.functionName && f.path != g.path
    ensures var cmds := FunctionCommands(desired, observed);
      DeleteFunction(f.functionName) in cmds && AddFunction(f) in cmds
      && Precedes(cmds, DeleteFunction(f.functionName), AddFunction(f))
  {
    var cmds := FunctionCommands(desired, observed);
    NewMapDistinct(ByFunctionName(desired), f.functionName, f);
    NewMapDistinct(ByFunctionName(observed), g.functionName, g);
    PlannedFunctionAdditions(desired, observed, f);
    PlannedFunctionDeletions(desired, observed, f.functionName);
    FunctionCommandsOrdered(desired, observed);
    SortedByPrecedes(cmds, HookGroup, DeleteFunction(f.functionName), AddFunction(f));
  }

  /** A trigger whose `path` changed is deleted and then added again. */
  lemma TriggerReplaced(desired: seq<HookTrigger>, observed: seq<HookTrigger>, t: HookTrigger, u: HookTrigger)
    requires UniqueTriggerKeys(desired) && UniqueTriggerKeys(observed)
    requires t in desired && u in observed
    requires t.className == u.className && t.triggerName == u.triggerName && t.path != u.path
    ensures var cmds := TriggerCommands(desired, observed);
      DeleteTrigger(t.className, t.triggerName) in cmds && AddTrigger(t) in cmds
      && Precedes(cmds, DeleteTrigger(t.className, t.triggerName), AddTrigger(t))
  {
    var cmds := TriggerCommands(desired, observed);
    TriggerCommandsOrdered(desired, observed);
    SortedByPrecedes(cmds, HookGroup, DeleteTrigger(t.className, t.triggerName), AddTrigger(t));
    var dm, om := TriggerMapOf(desired), TriggerMapOf(observed);
    assert TriggerKey(t) == TriggerKey(u);
    NewMapDistinct(ByTriggerKey(observed), TriggerKey(u), u);
    assert TriggerKey(t) in om && om[TriggerKey(t)].path != t.path;
    PlannedTriggerAdditions(desired, observed, t);
    NewMapDistinct(ByTriggerKey(desired), TriggerKey(t), t);
    assert u in observed && u.className == t.className && u.triggerName == t.triggerName
      && TriggerKey(u) in dm && dm[TriggerKey(u)].path != u.path;
    PlannedTriggerDeletions(desired, observed, t.className, t.triggerName);
  }

  // ---------------------------------------------------------------------------
  // Planning a schema against itself, and the url it ignores

  lemma ColumnChangesNone(className: string, fields: Obj<ColumnDefinition>)
    ensures ColumnChanges(className, fields, fields) == []
  {
    forall f | f in fields ensures ColumnStep(className, f, fields) == [] {
      GetEntry(fields, f.0, f.1);
    }
    FlatMapNone(fields, f => ColumnStep(className, f, fields));
  }

  lemma ColumnDeletionsNone(className: string, fields: Obj<ColumnDefinition>)
    ensures ColumnDeletions(className, fields, fields) == []
  {
    forall f | f in fields ensures DeletedColumnStep(className, f, fields) == [] {
      GetEntry(fields, f.0, f.1);
    }
    FlatMapNone(fields, f => DeletedColumnStep(className, f, fields));
  }

  lemma IndexChangesNone(className: string, indexes: Obj<IndexDefinition>)
    ensures IndexChanges(className, indexes, indexes) == []
  {
    forall i | i in indexes ensures IndexStep(className, i, indexes) == [] {
      GetEntry(indexes, i.0, i.1);
    }
    FlatMapNone(indexes, i => IndexStep(className, i, indexes));
  }

  lemma IndexDeletionsNone(className: string, indexes: Obj<IndexDefinition>)
    ensures IndexDeletions(className, indexes, indexes) == []
  {
    forall i | i in indexes ensures DeletedIndexStep(className, i, indexes) == [] {
      GetEntry(indexes, i.0, i.1);
    }
    FlatMapNone(indexes, i => DeletedIndexStep(className, i, indexes));
  }

  /** With distinct class names, the collections need no command against themselves. */
  lemma CollectionCommandsOfItself(cs: seq<CollectionDefinition>)
    requires UniqueClassNames(cs)
    ensures CollectionCommands(cs, cs) == []
  {
    var m := ClassMapOf(cs);
    forall c | c in cs ensures c.className in m && m[c.className] == c {
      ClassMapUnique(cs, c);
    }
    forall c | c in cs ensures NewColumnsStep(c, m) == [] && DeletedColumnsStep(c, m) == [] {
      ColumnChangesNone(c.className, c.fields);
      ColumnDeletionsNone(c.className, c.fields);
    }
    forall c | c in cs ensures NewIndexesStep(c, m) == [] && DeletedIndexesStep(c, m) == [] {
      IndexChangesNone(c.className, OrEmpty(c.indexes));
      IndexDeletionsNone(c.className, OrEmpty(c.indexes));
    }
    FlatMapNone(cs, c => NewCollectionStep(c, m));
    FlatMapNone(cs, c => DeletedCollectionStep(c, m));
    FlatMapNone(cs, c => NewColumnsStep(c, m));
    FlatMapNone(cs, c => DeletedColumnsStep(c, m));
    FlatMapNone(cs, c => NewIndexesStep(c, m));
    FlatMapNone(cs, c => DeletedIndexesStep(c, m));
  }

  /** Each function's name is in the function map. */
  lemma FunctionMapHas(fs: seq<HookFunction>, f: HookFunction)
    requires f in fs
    ensures f.functionName in FunctionMapOf(fs)
  {
    var i :| 0 <= i < |fs| && fs[i] == f;
    KeySetHas(ByFunctionName(fs), i);
  }

  /** The function the map holds under a name is one of the functions. */
  lemma FunctionMapFrom(fs: seq<HookFunction>, name: string)
    requires name in FunctionMapOf(fs)
    ensures FunctionMapOf(fs)[name] in fs
  {
    var e := ByFunctionName(fs);
    NewMapValue(e, name);
    var i :| 0 <= i < |e| && e[i] == (name, FunctionMapOf(fs)[name]);
    assert fs[i] in fs;
  }

  lemma TriggerMapHas(ts: seq<HookTrigger>, t: HookTrigger)
    requires t in ts
    ensures TriggerKey(t) in TriggerMapOf(ts)
  {
    var i :| 0 <= i < |ts| && ts[i] == t;
    KeySetHas(ByTriggerKey(ts), i);
  }

  lemma TriggerMapFrom(ts: seq<HookTrigger>, key: string)
    requires key in TriggerMapOf(ts)
    ensures TriggerMapOf(ts)[key] in ts
  {
    var e := ByTriggerKey(ts);
    NewMapValue(e, key);
    var i :| 0 <= i < |e| && e[i] == (key, TriggerMapOf(ts)[key]);
    assert ts[i] in ts;
  }

  /** Only the `path` of a hook is compared: when no hook has one, two lists with the same
      function names need no command, whatever their urls. */
  lemma PathlessFunctionsIgnoreUrls(desired: seq<HookFunction>, observed: seq<HookFunction>)
    requires forall f | f in desired :: f.path.None?
    requires forall g | g in observed :: g.path.None?
    requires FunctionMapOf(desired).Keys == FunctionMapOf(observed).Keys
    ensures FunctionCommands(desired, observed) == []
  {
    var om := FunctionMapOf(observed);
    var dm := FunctionMapOf(desired);
    forall f | f in desired ensures NewFunctionStep(f, om) == [] {
      FunctionMapHas(desired, f);
      FunctionMapFrom(observed, f.functionName);
    }
    forall g | g in observed ensures DeletedFunctionStep(g, dm) == [] {
      FunctionMapHas(observed, g);
      FunctionMapFrom(desired, g.functionName);
    }
    FlatMapNone(desired, f => NewFunctionStep(f, om));
    FlatMapNone(observed, g => DeletedFunctionStep(g, dm));
  }

  /** The same for triggers, with the same keys on both sides. */
  lemma PathlessTriggersIgnoreUrls(desired: seq<HookTrigger>, observed: seq<HookTrigger>)
    requires forall t | t in desired :: t.path.None?
    requires forall u | u in observed :: u.path.None?
    requires TriggerMapOf(desired).Keys == TriggerMapOf(observed).Keys
    ensures TriggerCommands(desired, observed) == []
  {
    var om := TriggerMapOf(observed);
    var dm := TriggerMapOf(desired);
    forall t | t in desired ensures NewTriggerStep(t, om) == [] {
      TriggerMapHas(desired, t);
      TriggerMapFrom(observed, TriggerKey(t));
    }
    forall u | u in observed ensures DeletedTriggerStep(u, dm) == [] {
      TriggerMapHas(observed, u);
      TriggerMapFrom(desired, TriggerKey(u));
    }
    FlatMapNone(desired, t => NewTriggerStep(t, om));
    FlatMapNone(observed, u => DeletedTriggerStep(u, dm));
  }

  /** With distinct names, the functions need no command against themselves. */
  lemma FunctionCommandsOfItself(fs: seq<HookFunction>)
    requires UniqueFunctionNames(fs)
    ensures FunctionCommands(fs, fs) == []
  {
    var m := FunctionMapOf(fs);
    forall f | f in fs ensures NewFunctionStep(f, m) == [] && DeletedFunctionStep(f, m) == [] {
      NewMapDistinct(ByFunctionName(fs), f.functionName, f);
    }
    FlatMapNone(fs, f => NewFunctionStep(f, m));
    FlatMapNone(fs, f => DeletedFunctionStep(f, m));
  }

  /** With distinct keys, the triggers need no command against themselves. */
  lemma TriggerCommandsOfItself(ts: seq<HookTrigger>)
    requires UniqueTriggerKeys(ts)
    ensures TriggerCommands(ts, ts) == []
  {
    var m := TriggerMapOf(ts);
    forall t | t in ts ensures NewTriggerStep(t, m) == [] && DeletedTriggerStep(t, m) == [] {
      NewMapDistinct(ByTriggerKey(ts), TriggerKey(t), t);
    }
    FlatMapNone(ts, t => NewTriggerStep(t, m));
    FlatMapNone(ts, t => DeletedTriggerStep(t, m));
  }
}

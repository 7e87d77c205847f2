/** The commands of the current planner: fifteen kinds of change, each tagged by its
    `type`, with the one-line rendering shown to users. */
module DistCommand {
  import opened JsValues
  import opened JsonValues
  import opened SchemaTypes
  import opened SchemaJson

  datatype Command =
    | AddCollection(collectionDef: CollectionDefinition)
    | DeleteCollection(collectionName: string)
    | AddColumn(collection: string, name: string, columnDef: ColumnDefinition)
    | DeleteColumn(collection: string, columnName: string)
    | UpdateColumn(collection: string, name: string, columnDef: ColumnDefinition)
    | AddIndex(collection: string, name: string, indexDef: IndexDefinition)
    | DeleteIndex(collection: string, indexName: string)
    | UpdateIndex(collection: string, name: string, indexDef: IndexDefinition)
    | AddFunction(functionDef: FunctionDefinition)
    | DeleteFunction(functionName: string)
    | UpdateFunction(functionDef: FunctionDefinition)
    | AddTrigger(triggerDef: TriggerDefinition)
    | DeleteTrigger(className: string, triggerName: string)
    | UpdateTrigger(triggerDef: TriggerDefinition)
    | UpdateCollectionPermissions(collection: string, permissions: Option<CollectionPermissions>,
                                  oldPermissions: Option<CollectionPermissions>)

  /** The `type` tag each constructor stamps on its command. */
  function Tag(c: Command): string {
    match c
    case AddCollection(_) => "AddCollection"
    case DeleteCollection(_) => "DeleteCollection"
    case AddColumn(_, _, _) => "AddColumn"
    case DeleteColumn(_, _) => "DeleteColumn"
    case UpdateColumn(_, _, _) => "UpdateColumn"
    case AddIndex(_, _, _) => "AddIndex"
    case DeleteIndex(_, _) => "DeleteIndex"
    case UpdateIndex(_, _, _) => "UpdateIndex"
    case AddFunction(_) => "AddFunction"
    case DeleteFunction(_) => "DeleteFunction"
    case UpdateFunction(_) => "UpdateFunction"
    case AddTrigger(_) => "AddTrigger"
    case DeleteTrigger(_, _) => "DeleteTrigger"
    case UpdateTrigger(_) => "UpdateTrigger"
    case UpdateCollectionPermissions(_, _, _) => "UpdateCollectionPermissions"
  }

  /** Exactly the three index commands carry an index tag. */
  lemma IndexTags(c: Command)
    ensures (Tag(c) == "AddIndex" || Tag(c) == "UpdateIndex" || Tag(c) == "DeleteIndex")
            <==> (c.AddIndex? || c.UpdateIndex? || c.DeleteIndex?)
  {
  }

  // ---------------------------------------------------------------------------
  // The command objects as JSON

  /** The object a constructor returns: `type` first, then its arguments under the
      field names the constructor uses. */
  function ToJson(c: Command): (r: Json)
    ensures r.JObj? && |r.members| > 0 && r.members[0] == ("type", JStr(Tag(c)))
  {
    var t := ("type", JStr(Tag(c)));
    match c
    case AddCollection(d) => JObj([t, ("definition", CollectionToJson(d))])
    case DeleteCollection(n) => JObj([t, ("collectionName", JStr(n))])
    case AddColumn(coll, n, d) => JObj([t, ("collection", JStr(coll)), ("name", JStr(n)), ("definition", ColumnToJson(d))])
    case DeleteColumn(coll, n) => JObj([t, ("collection", JStr(coll)), ("columnName", JStr(n))])
    case UpdateColumn(coll, n, d) => JObj([t, ("collection", JStr(coll)), ("name", JStr(n)), ("definition", ColumnToJson(d))])
    case AddIndex(coll, n, d) => JObj([t, ("collection", JStr(coll)), ("name", JStr(n)), ("definition", IndexToJson(d))])
    case DeleteIndex(coll, n) => JObj([t, ("collection", JStr(coll)), ("indexName", JStr(n))])
    case UpdateIndex(coll, n, d) => JObj([t, ("collection", JStr(coll)), ("name", JStr(n)), ("definition", IndexToJson(d))])
    case AddFunction(d) => JObj([t, ("definition", FunctionToJson(d))])
    case DeleteFunction(n) => JObj([t, ("functionName", JStr(n))])
    case UpdateFunction(d) => JObj([t, ("definition", FunctionToJson(d))])
    case AddTrigger(d) => JObj([t, ("definition", TriggerToJson(d))])
    case DeleteTrigger(cn, tn) => JObj([t, ("className", JStr(cn)), ("triggerName", JStr(tn))])
    case UpdateTrigger(d) => JObj([t, ("definition", TriggerToJson(d))])
    case UpdateCollectionPermissions(coll, p, op) =>
      JObj([t, ("collection", JStr(coll))]
           + Optional("definition", OptionalPermissions(p))
           + Optional("oldDefinition", OptionalPermissions(op)))
  }

  /** The property at position `i` of an object, when it has name `key`. Commands are
      read back field by field in the order their constructor writes them. */
  function At(j: Json, i: nat, key: string): Option<Json> {
    if j.JObj? && i < |j.members| && j.members[i].0 == key then Some(j.members[i].1) else None
  }

  function StrAt(j: Json, i: nat, key: string): Option<string> { StrFromJson(At(j, i, key)) }

  /** An optional permissions property: absent is `undefined`, present must decode. */
  function OptionalPermissionsFromJson(j: Option<Json>): Option<Option<CollectionPermissions>> {
    if j.None? then Some(None)
    else
      var p := PermissionsFromJson(j.value);
      if p.Some? then Some(Some(p.value)) else None
  }

  /** Reading a command back from its JSON form, dispatching on `type` alone. */
  function FromJson(j: Json): Option<Command> {
    match StrAt(j, 0, "type")
    case Some("AddCollection") => AddCollectionFromJson(j)
    case Some("DeleteCollection") => DeleteCollectionFromJson(j)
    case Some("AddColumn") => ColumnCommandFromJson(j, true)
    case Some("DeleteColumn") => DeleteColumnFromJson(j)
    case Some("UpdateColumn") => ColumnCommandFromJson(j, false)
    case Some("AddIndex") => IndexCommandFromJson(j, true)
    case Some("DeleteIndex") => DeleteIndexFromJson(j)
    case Some("UpdateIndex") => IndexCommandFromJson(j, false)
    case Some("AddFunction") => FunctionCommandFromJson(j, true)
    case Some("DeleteFunction") => DeleteFunctionFromJson(j)
    case Some("UpdateFunction") => FunctionCommandFromJson(j, false)
    case Some("AddTrigger") => TriggerCommandFromJson(j, true)
    case Some("DeleteTrigger") => DeleteTriggerFromJson(j)
    case Some("UpdateTrigger") => TriggerCommandFromJson(j, false)
    case Some("UpdateCollectionPermissions") => PermissionsCommandFromJson(j)
    case _ => None
  }

  /** The decoder `FromJson` picks for the tag of `c`. */
  function DecoderFor(c: Command, j: Json): Option<Command> {
    match c
    case AddCollection(_) => AddCollectionFromJson(j)
    case DeleteCollection(_) => DeleteCollectionFromJson(j)
    case AddColumn(_, _, _) => ColumnCommandFromJson(j, true)
    case DeleteColumn(_, _) => DeleteColumnFromJson(j)
    case UpdateColumn(_, _, _) => ColumnCommandFromJson(j, false)
    case AddIndex(_, _, _) => IndexCommandFromJson(j, true)
    case DeleteIndex(_, _) => DeleteIndexFromJson(j)
    case UpdateIndex(_, _, _) => IndexCommandFromJson(j, false)
    case AddFunction(_) => FunctionCommandFromJson(j, true)
    case DeleteFunction(_) => DeleteFunctionFromJson(j)
    case UpdateFunction(_) => FunctionCommandFromJson(j, false)
    case AddTrigger(_) => TriggerCommandFromJson(j, true)
    case DeleteTrigger(_, _) => DeleteTriggerFromJson(j)
    case UpdateTrigger(_) => TriggerCommandFromJson(j, false)
    case UpdateCollectionPermissions(_, _, _) => PermissionsCommandFromJson(j)
  }

  /** The fifteen tags are distinct: an object tagged like `c` is read by the decoder
      for `c`'s kind. */
  lemma Dispatch(c: Command, j: Json)
    requires StrAt(j, 0, "type") == Some(Tag(c))
    ensures FromJson(j) == DecoderFor(c, j)
  {
    if c.AddCollection? || c.DeleteCollection? || c.AddColumn? || c.DeleteColumn? || c.UpdateColumn? {
      DispatchColumns(c, j);
    } else if c.AddIndex? || c.DeleteIndex? || c.UpdateIndex? || c.UpdateCollectionPermissions? {
      DispatchIndexes(c, j);
    } else {
      DispatchHooks(c, j);
    }
  }

  lemma DispatchColumns(c: Command, j: Json)
    requires c.AddCollection? || c.DeleteCollection? || c.AddColumn? || c.DeleteColumn? || c.UpdateColumn?
    requires StrAt(j, 0, "type") == Some(Tag(c))
    ensures FromJson(j) == DecoderFor(c, j)
  {
    match c
    case AddCollection(_) =>
    case DeleteCollection(_) =>
    case AddColumn(_, _, _) =>
    case DeleteColumn(_, _) =>
    case UpdateColumn(_, _, _) =>
  }

  lemma DispatchIndexes(c: Command, j: Json)
    requires c.AddIndex? || c.DeleteIndex? || c.UpdateIndex? || c.UpdateCollectionPermissions?
    requires StrAt(j, 0, "type") == Some(Tag(c))
    ensures FromJson(j) == DecoderFor(c, j)
  {
    match c
    case AddIndex(_, _, _) =>
    case DeleteIndex(_, _) =>
    case UpdateIndex(_, _, _) =>
    case UpdateCollectionPermissions(_, _, _) =>
  }

  lemma DispatchHooks(c: Command, j: Json)
    requires c.AddFunction? || c.DeleteFunction? || c.UpdateFunction? || c.AddTrigger? || c.DeleteTrigger? || c.UpdateTrigger?
    requires StrAt(j, 0, "type") == Some(Tag(c))
    ensures FromJson(j) == DecoderFor(c, j)
  {
    if c.AddFunction? || c.DeleteFunction? || c.UpdateFunction? {
      DispatchFunctions(c, j);
    } else {
      DispatchTriggers(c, j);
    }
  }

  lemma DispatchFunctions(c: Command, j: Json)
    requires c.AddFunction? || c.DeleteFunction? || c.UpdateFunction?
    requires StrAt(j, 0, "type") == Some(Tag(c))
    ensures FromJson(j) == DecoderFor(c, j)
  {
    match c
    case AddFunction(_) =>
    case DeleteFunction(_) =>
    case UpdateFunction(_) =>
  }

  lemma DispatchTriggers(c: Command, j: Json)
    requires c.AddTrigger? || c.DeleteTrigger? || c.UpdateTrigger?
    requires StrAt(j, 0, "type") == Some(Tag(c))
    ensures FromJson(j) == DecoderFor(c, j)
  {
    match c
    case AddTrigger(_) =>
    case DeleteTrigger(_, _) =>
    case UpdateTrigger(_) =>
  }

  function AddCollectionFromJson(j: Json): Option<Command> {
    var def := At(j, 1, "definition");
    var d := if def.Some? then CollectionFromJson(def.value) else None;
    if d.Some? then Some(AddCollection(d.value)) else None
  }

  function DeleteCollectionFromJson(j: Json): Option<Command> {
    var n := StrAt(j, 1, "collectionName");
    if n.Some? then Some(DeleteCollection(n.value)) else None
  }

  function ColumnCommandFromJson(j: Json, add: bool): Option<Command> {
    var coll := StrAt(j, 1, "collection");
    var name := StrAt(j, 2, "name");
    var def := At(j, 3, "definition");
    var d := if def.Some? then ColumnFromJson(def.value) else None;
    if coll.None? || name.None? || d.None? then None
    else if add then Some(AddColumn(coll.value, name.value, d.value))
    else Some(UpdateColumn(coll.value, name.value, d.value))
  }

  function DeleteColumnFromJson(j: Json): Option<Command> {
    var coll := StrAt(j, 1, "collection");
    var n := StrAt(j, 2, "columnName");
    if coll.Some? && n.Some? then Some(DeleteColumn(coll.value, n.value)) else None
  }

  function IndexCommandFromJson(j: Json, add: bool): Option<Command> {
    var coll := StrAt(j, 1, "collection");
    var name := StrAt(j, 2, "name");
    var def := At(j, 3, "definition");
    var d := if def.Some? then IndexFromJson(def.value) else None;
    if coll.None? || name.None? || d.None? then None
    else if add then Some(AddIndex(coll.value, name.value, d.value))
    else Some(UpdateIndex(coll.value, name.value, d.value))
  }

  function DeleteIndexFromJson(j: Json): Option<Command> {
    var coll := StrAt(j, 1, "collection");
    var n := StrAt(j, 2, "indexName");
    if coll.Some? && n.Some? then Some(DeleteIndex(coll.value, n.value)) else None
  }

  function FunctionCommandFromJson(j: Json, add: bool): Option<Command> {
    var def := At(j, 1, "definition");
    var d := if def.Some? then FunctionFromJson(def.value) else None;
    if d.None? then None
    else if add then Some(AddFunction(d.value))
    else Some(UpdateFunction(d.value))
  }

  function DeleteFunctionFromJson(j: Json): Option<Command> {
    var n := StrAt(j, 1, "functionName");
    if n.Some? then Some(DeleteFunction(n.value)) else None
  }

  function TriggerCommandFromJson(j: Json, add: bool): Option<Command> {
    var def := At(j, 1, "definition");
    var d := if def.Some? then TriggerFromJson(def.value) else None;
    if d.None? then None
    else if add then Some(AddTrigger(d.value))
    else Some(UpdateTrigger(d.value))
  }

  function DeleteTriggerFromJson(j: Json): Option<Command> {
    var cn := StrAt(j, 1, "className");
    var tn := StrAt(j, 2, "triggerName");
    if cn.Some? && tn.Some? then Some(DeleteTrigger(cn.value, tn.value)) else None
  }

  /** The two permission maps are optional, so they are looked up by name. */
  function PermissionsCommandFromJson(j: Json): Option<Command> {
    var coll := StrAt(j, 1, "collection");
    var p := OptionalPermissionsFromJson(Member(j, "definition"));
    var op := OptionalPermissionsFromJson(Member(j, "oldDefinition"));
    if coll.Some? && p.Some? && op.Some? then Some(UpdateCollectionPermissions(coll.value, p.value, op.value))
    else None
  }

  /** Each constructor stores its arguments unchanged under their field names, and the
      `type` tag alone tells which constructor made the object: reading the JSON form
      back gives the same command. */
  lemma RoundTrip(c: Command)
    ensures FromJson(ToJson(c)) == Some(c)
  {
    Dispatch(c, ToJson(c));
    if c.AddCollection? || c.DeleteCollection? || c.AddColumn? || c.DeleteColumn? || c.UpdateColumn? {
      ColumnsRoundTrip(c);
    } else if c.AddIndex? || c.DeleteIndex? || c.UpdateIndex? || c.UpdateCollectionPermissions? {
      IndexesRoundTrip(c);
    } else {
      HooksRoundTrip(c);
    }
  }

  lemma ColumnsRoundTrip(c: Command)
    requires c.AddCollection? || c.DeleteCollection? || c.AddColumn? || c.DeleteColumn? || c.UpdateColumn?
    ensures DecoderFor(c, ToJson(c)) == Some(c)
  {
    if c.AddCollection? {
      CollectionRoundTrip(c.collectionDef);
    } else if c.AddColumn? || c.UpdateColumn? {
      ColumnChangeRoundTrip(c);
    }
  }

  lemma ColumnChangeRoundTrip(c: Command)
    requires c.AddColumn? || c.UpdateColumn?
    ensures DecoderFor(c, ToJson(c)) == Some(c)
  {
    var j := ToJson(c);
    ColumnRoundTrip(c.columnDef);
    assert StrAt(j, 1, "collection") == Some(c.collection);
    assert StrAt(j, 2, "name") == Some(c.name);
    assert At(j, 3, "definition") == Some(ColumnToJson(c.columnDef));
  }

  lemma IndexesRoundTrip(c: Command)
    requires c.AddIndex? || c.DeleteIndex? || c.UpdateIndex? || c.UpdateCollectionPermissions?
    ensures DecoderFor(c, ToJson(c)) == Some(c)
  {
    if c.AddIndex? || c.UpdateIndex? {
      IndexChangeRoundTrip(c);
    } else if c.UpdateCollectionPermissions? {
      PermissionsCommandRoundTrip(c);
    }
  }

  lemma IndexChangeRoundTrip(c: Command)
    requires c.AddIndex? || c.UpdateIndex?
    ensures DecoderFor(c, ToJson(c)) == Some(c)
  {
    var j := ToJson(c);
    IndexRoundTrip(c.indexDef);
    assert StrAt(j, 1, "collection") == Some(c.collection);
    assert StrAt(j, 2, "name") == Some(c.name);
    assert At(j, 3, "definition") == Some(IndexToJson(c.indexDef));
  }

  lemma HooksRoundTrip(c: Command)
    requires c.AddFunction? || c.DeleteFunction? || c.UpdateFunction? || c.AddTrigger? || c.DeleteTrigger? || c.UpdateTrigger?
    ensures DecoderFor(c, ToJson(c)) == Some(c)
  {
    if c.AddFunction? || c.UpdateFunction? {
      FunctionRoundTrip(c.functionDef);
      assert At(ToJson(c), 1, "definition") == Some(FunctionToJson(c.functionDef));
    } else if c.AddTrigger? || c.UpdateTrigger? {
      TriggerRoundTrip(c.triggerDef);
      assert At(ToJson(c), 1, "definition") == Some(TriggerToJson(c.triggerDef));
    }
  }

  /** The permission maps of an encoded permissions update are found under their names. */
  lemma PermissionsMembers(c: Command)
    requires c.UpdateCollectionPermissions?
    ensures Member(ToJson(c), "definition") == OptionalPermissions(c.permissions)
    ensures Member(ToJson(c), "oldDefinition") == OptionalPermissions(c.oldPermissions)
  {
    var head := [("type", JStr(Tag(c))), ("collection", JStr(c.collection))];
    var p := Optional("definition", OptionalPermissions(c.permissions));
    var op := Optional("oldDefinition", OptionalPermissions(c.oldPermissions));
    assert ToJson(c).members == head + (p + op);
    assert head[1..] == [("collection", JStr(c.collection))];
    assert head[1..][1..] == [];
    assert KeySet(head[1..]) == {"collection"};
    assert KeySet(head) == {"type", "collection"};
    assert "definition"[0] != "collection"[0];
    GetAppend(head, p + op, "definition");
    GetAppend(head, p + op, "oldDefinition");
    GetAppend(p, op, "definition");
    GetAppend(p, op, "oldDefinition");
  }

  lemma PermissionsCommandRoundTrip(c: Command)
    requires c.UpdateCollectionPermissions?
    ensures PermissionsCommandFromJson(ToJson(c)) == Some(c)
  {
    var j := ToJson(c);
    PermissionsMembers(c);
    assert j.members[1] == ("collection", JStr(c.collection));
    assert StrAt(j, 1, "collection") == Some(c.collection);
    assert OptionalPermissionsFromJson(Member(j, "definition")) == Some(c.permissions) by {
      if c.permissions.Some? {
        PermissionsRoundTrip(c.permissions.value);
      }
    }
    assert OptionalPermissionsFromJson(Member(j, "oldDefinition")) == Some(c.oldPermissions) by {
      if c.oldPermissions.Some? {
        PermissionsRoundTrip(c.oldPermissions.value);
      }
    }
  }

  // ---------------------------------------------------------------------------
  // Rendering

  /** A property read from an index definition, as a template string shows it. */
  function InterpolateNumber(n: Option<int>): string {
    if n.Some? then IntToDecimal(n.value) else "undefined"
  }

  /** `${prefix}"${name}"` */
  function Quoting(prefix: string, name: string): (r: string)
    ensures |r| > 0 && r[|r| - 1] == '"'
  {
    prefix + "\"" + name + "\""
  }

  /** `${prefix}"${first}"${middle}"${second}"` */
  function Quoting2(prefix: string, first: string, middle: string, second: string): string {
    Quoting(prefix, first) + Quoting(middle, second)
  }

  /** `prettyPrintCommand`. An update of an index reads the index and class names from
      the index definition itself, where an ordinary index (column to direction) holds
      neither; the command's own `name` and `collection` are not shown. */
  function PrettyPrint(c: Command): (r: string)
    ensures |r| > 0 && r[|r| - 1] == '"'
  {
    match c
    case AddCollection(d) => Quoting("Add Collection ", d.className)
    case DeleteCollection(n) => Quoting("Delete Collection ", n)
    case AddColumn(coll, n, _) => Quoting2("Add Column ", n, " to ", coll)
    case DeleteColumn(coll, n) => Quoting2("Delete Column ", n, " from ", coll)
    case UpdateColumn(coll, n, _) => Quoting2("Update Column ", n, " on ", coll)
    case AddIndex(coll, n, _) => Quoting2("Add Index ", n, " to ", coll)
    case DeleteIndex(coll, n) => Quoting2("Delete Index ", n, " from ", coll)
    case UpdateIndex(_, _, d) =>
      Quoting2("Update Index ", InterpolateNumber(Get(d, "indexName")), " on ", InterpolateNumber(Get(d, "className")))
    case AddFunction(d) => Quoting("Add Function ", d.functionName)
    case DeleteFunction(n) => Quoting("Delete Function ", n)
    case UpdateFunction(d) => Quoting("Update Function ", d.functionName)
    case AddTrigger(d) => Quoting2("Add Trigger ", d.triggerName, " on ", d.className)
    case DeleteTrigger(cn, tn) => Quoting2("Delete Trigger ", tn, " on ", cn)
    case UpdateTrigger(d) => Quoting2("Update Trigger ", d.triggerName, " on ", d.className)
    case UpdateCollectionPermissions(coll, p, op) =>
      Quoting2("Update Permissions on class ", coll, " to ", PrettyPrintCollectionPermissions(p))
      + Quoting(" from ", PrettyPrintCollectionPermissions(op))
  }

  /** The fixed words and the names a rendering shows, in order. */
  function Parts(c: Command): seq<string>
    requires !c.UpdateCollectionPermissions? && !c.UpdateIndex?
  {
    match c
    case AddCollection(d) => ["Add Collection ", d.className, ""]
    case DeleteCollection(n) => ["Delete Collection ", n, ""]
    case AddColumn(coll, n, _) => ["Add Column ", n, " to ", coll, ""]
    case DeleteColumn(coll, n) => ["Delete Column ", n, " from ", coll, ""]
    case UpdateColumn(coll, n, _) => ["Update Column ", n, " on ", coll, ""]
    case AddIndex(coll, n, _) => ["Add Index ", n, " to ", coll, ""]
    case DeleteIndex(coll, n) => ["Delete Index ", n, " from ", coll, ""]
    case AddFunction(d) => ["Add Function ", d.functionName, ""]
    case DeleteFunction(n) => ["Delete Function ", n, ""]
    case UpdateFunction(d) => ["Update Function ", d.functionName, ""]
    case AddTrigger(d) => ["Add Trigger ", d.triggerName, " on ", d.className, ""]
    case DeleteTrigger(cn, tn) => ["Delete Trigger ", tn, " on ", cn, ""]
    case UpdateTrigger(d) => ["Update Trigger ", d.triggerName, " on ", d.className, ""]
  }

  lemma SplitQuoting(prefix: string, name: string)
    requires '"' !in prefix && '"' !in name
    ensures Split(Quoting(prefix, name), '"') == [prefix, name, ""]
  {
    var q := "\"";
    JoinCons(name, [""], q);
    JoinCons(prefix, [name, ""], q);
    assert [prefix] + [name, ""] == [prefix, name, ""];
    assert Quoting(prefix, name) == Join([prefix, name, ""], q);
    SplitJoin([prefix, name, ""], '"');
  }

  lemma SplitQuoting2(prefix: string, first: string, middle: string, second: string)
    requires '"' !in prefix && '"' !in first && '"' !in middle && '"' !in second
    ensures Split(Quoting2(prefix, first, middle, second), '"') == [prefix, first, middle, second, ""]
  {
    var q := "\"";
    JoinCons(second, [""], q);
    JoinCons(middle, [second, ""], q);
    JoinCons(first, [middle, second, ""], q);
    JoinCons(prefix, [first, middle, second, ""], q);
    assert [middle] + [second, ""] == [middle, second, ""];
    assert [first] + [middle, second, ""] == [first, middle, second, ""];
    assert [prefix] + [first, middle, second, ""] == [prefix, first, middle, second, ""];
    assert Quoting2(prefix, first, middle, second) == Join([prefix, first, middle, second, ""], q);
    SplitJoin([prefix, first, middle, second, ""], '"');
  }

  /** Splitting a rendering at its double quotes gives back the fixed words and the
      names it shows, when no name holds a double quote: the line determines the kind
      of change and the names it concerns. */
  lemma PrettyPrintSplits(c: Command)
    requires !c.UpdateCollectionPermissions? && !c.UpdateIndex?
    requires forall p | p in Parts(c) :: '"' !in p
    ensures Split(PrettyPrint(c), '"') == Parts(c)
  {
    if c.AddCollection? || c.DeleteCollection? || c.AddFunction? || c.DeleteFunction? || c.UpdateFunction? {
      OneNameSplits(c);
    } else {
      TwoNamesSplits(c);
    }
  }

  lemma OneNameSplits(c: Command)
    requires c.AddCollection? || c.DeleteCollection? || c.AddFunction? || c.DeleteFunction? || c.UpdateFunction?
    requires forall p | p in Parts(c) :: '"' !in p
    ensures Split(PrettyPrint(c), '"') == Parts(c)
  {
    var ps := Parts(c);
    assert ps == [ps[0], ps[1], ""] && '"' !in ps[0] && '"' !in ps[1];
    assert PrettyPrint(c) == Quoting(ps[0], ps[1]);
    SplitQuoting(ps[0], ps[1]);
  }

  lemma TwoNamesSplits(c: Command)
    requires !c.UpdateCollectionPermissions? && !c.UpdateIndex?
    requires !(c.AddCollection? || c.DeleteCollection? || c.AddFunction? || c.DeleteFunction? || c.UpdateFunction?)
    requires forall p | p in Parts(c) :: '"' !in p
    ensures Split(PrettyPrint(c), '"') == Parts(c)
  {
    var ps := Parts(c);
    assert ps == [ps[0], ps[1], ps[2], ps[3], ""];
    assert '"' !in ps[0] && '"' !in ps[1] && '"' !in ps[2] && '"' !in ps[3];
    assert PrettyPrint(c) == Quoting2(ps[0], ps[1], ps[2], ps[3]);
    SplitQuoting2(ps[0], ps[1], ps[2], ps[3]);
  }

  /** An index update renders the same whatever its name and collection. */
  lemma PrettyPrintUpdateIndexIgnoresNames(coll1: string, name1: string, coll2: string, name2: string,
                                           d: IndexDefinition)
    ensures PrettyPrint(UpdateIndex(coll1, name1, d)) == PrettyPrint(UpdateIndex(coll2, name2, d))
    ensures Get(d, "indexName").None? && Get(d, "className").None? ==>
      PrettyPrint(UpdateIndex(coll1, name1, d)) == Quoting2("Update Index ", "undefined", " on ", "undefined")
  {
  }
}

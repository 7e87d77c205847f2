/** The commands of the older planner: six kinds of change, tagged by `command`. A
    changed column or index is expressed as a deletion followed by an addition, so
    there are no update commands. */
module SrcCommand {
  import opened JsValues
  import opened JsonValues
  import opened SchemaTypes
  import opened SchemaJson

  /** Both deletions keep the deleted name under `columnName`. */
  datatype Command =
    | AddCollection(collectionDef: CollectionDefinition)
    | DeleteCollection(collectionName: string)
    | AddColumn(collection: string, name: string, columnDef: ColumnDefinition)
    | DeleteColumn(collection: string, columnName: string)
    | AddIndex(collection: string, name: string, indexDef: IndexDefinition)
    | DeleteIndex(collection: string, columnName: string)

  /** The `command` tag each constructor stamps on its command. */
  function Tag(c: Command): string {
    match c
    case AddCollection(_) => "AddCollection"
    case DeleteCollection(_) => "DeleteCollection"
    case AddColumn(_, _, _) => "AddColumn"
    case DeleteColumn(_, _) => "DeleteColumn"
    case AddIndex(_, _, _) => "AddIndex"
    case DeleteIndex(_, _) => "DeleteIndex"
  }

  /** The object a constructor returns: `command` first, then its arguments under the
      field names the constructor uses. */
  function ToJson(c: Command): (r: Json)
    ensures r.JObj? && |r.members| > 0 && r.members[0] == ("command", JStr(Tag(c)))
  {
    var t := ("command", JStr(Tag(c)));
    match c
    case AddCollection(d) => JObj([t, ("definition", CollectionToJson(d))])
    case DeleteCollection(n) => JObj([t, ("collectionName", JStr(n))])
    case AddColumn(coll, n, d) => JObj([t, ("collection", JStr(coll)), ("name", JStr(n)), ("definition", ColumnToJson(d))])
    case DeleteColumn(coll, n) => JObj([t, ("collection", JStr(coll)), ("columnName", JStr(n))])
    case AddIndex(coll, n, d) => JObj([t, ("collection", JStr(coll)), ("name", JStr(n)), ("definition", IndexToJson(d))])
    case DeleteIndex(coll, n) => JObj([t, ("collection", JStr(coll)), ("columnName", JStr(n))])
  }

  /** The property at position `i` of an object, when it has name `key`. */
  function At(j: Json, i: nat, key: string): Option<Json> {
    if j.JObj? && i < |j.members| && j.members[i].0 == key then Some(j.members[i].1) else None
  }

  function StrAt(j: Json, i: nat, key: string): Option<string> { StrFromJson(At(j, i, key)) }

  /** Reading a command back from its JSON form, dispatching on `command` alone. */
  function FromJson(j: Json): Option<Command> {
    var coll := StrAt(j, 1, "collection");
    match StrAt(j, 0, "command")
    case Some("AddCollection") =>
      var def := At(j, 1, "definition");
      var d := if def.Some? then CollectionFromJson(def.value) else None;
      if d.Some? then Some(AddCollection(d.value)) else None
    case Some("DeleteCollection") =>
      var n := StrAt(j, 1, "collectionName");
      if n.Some? then Some(DeleteCollection(n.value)) else None
    case Some("AddColumn") =>
      var name := StrAt(j, 2, "name");
      var def := At(j, 3, "definition");
      var d := if def.Some? then ColumnFromJson(def.value) else None;
      if coll.Some? && name.Some? && d.Some? then Some(AddColumn(coll.value, name.value, d.value)) else None
    case Some("DeleteColumn") =>
      var n := StrAt(j, 2, "columnName");
      if coll.Some? && n.Some? then Some(DeleteColumn(coll.value, n.value)) else None
    case Some("AddIndex") =>
      var name := StrAt(j, 2, "name");
      var def := At(j, 3, "definition");
      var d := if def.Some? then IndexFromJson(def.value) else None;
      if coll.Some? && name.Some? && d.Some? then Some(AddIndex(coll.value, name.value, d.value)) else None
    case Some("DeleteIndex") =>
      var n := StrAt(j, 2, "columnName");
      if coll.Some? && n.Some? then Some(DeleteIndex(coll.value, n.value)) else None
    case _ => None
  }

  /** Each constructor stores its arguments unchanged, and the six tags are distinct, so
      the `command` tag alone tells which constructor made the object: reading the JSON
      form back gives the same command. */
  lemma RoundTrip(c: Command)
    ensures FromJson(ToJson(c)) == Some(c)
  {
    if c.AddCollection? || c.DeleteCollection? {
      CollectionsRoundTrip(c);
    } else if c.AddColumn? || c.DeleteColumn? {
      ColumnsRoundTrip(c);
    } else {
      IndexesRoundTrip(c);
    }
  }

  lemma CollectionsRoundTrip(c: Command)
    requires c.AddCollection? || c.DeleteCollection?
    ensures FromJson(ToJson(c)) == Some(c)
  {
    assert StrAt(ToJson(c), 0, "command") == Some(Tag(c));
    if c.AddCollection? {
      CollectionRoundTrip(c.collectionDef);
    }
  }

  lemma ColumnsRoundTrip(c: Command)
    requires c.AddColumn? || c.DeleteColumn?
    ensures FromJson(ToJson(c)) == Some(c)
  {
    assert StrAt(ToJson(c), 0, "command") == Some(Tag(c));
    assert StrAt(ToJson(c), 1, "collection") == Some(c.collection);
    if c.AddColumn? {
      ColumnRoundTrip(c.columnDef);
    }
  }

  lemma IndexesRoundTrip(c: Command)
    requires c.AddIndex? || c.DeleteIndex?
    ensures FromJson(ToJson(c)) == Some(c)
  {
    assert StrAt(ToJson(c), 0, "command") == Some(Tag(c));
    assert StrAt(ToJson(c), 1, "collection") == Some(c.collection);
    if c.AddIndex? {
      IndexRoundTrip(c.indexDef);
    }
  }

  /** A deleted column and a deleted index with the same names have the same fields and
      differ only in their tag. */
  lemma DeletionsShareFields(coll: string, name: string)
    ensures ToJson(DeleteColumn(coll, name)).members[1..] == ToJson(DeleteIndex(coll, name)).members[1..]
    ensures Tag(DeleteColumn(coll, name)) != Tag(DeleteIndex(coll, name))
  {
    assert Tag(DeleteColumn(coll, name))[6] != Tag(DeleteIndex(coll, name))[6];
  }
}

/** The older snapshot's translation of commands into HTTP requests. Unlike the newer
    build it sends a new collection exactly as defined, and it pads every column request
    with an empty `indexes` object and every index request with an empty `fields`
    object. The snapshot's own command module lacks the command union this file switches
    on, so the commands are the newer build's. */
module SrcExecutor {
  import opened JsValues
  import opened JsonValues
  import opened SchemaTypes
  import opened SchemaJson
  import opened DistCommand
  import opened Http

  const EmptyObject: Json := JObj([])

  /** A PUT on a collection changing the single column `name`, with no index changes. */
  function ColumnRequest(collection: string, name: string, value: Json): Request {
    Request(Put, SchemaUrl(collection),
            Some(JObj([("className", JStr(collection)), ("fields", JObj([(name, value)])), ("indexes", EmptyObject)])))
  }

  /** A PUT on a collection changing the single index `name`, with no column changes. */
  function IndexRequest(collection: string, name: string, value: Json): Request {
    Request(Put, SchemaUrl(collection),
            Some(JObj([("className", JStr(collection)), ("fields", EmptyObject), ("indexes", JObj([(name, value)]))])))
  }

  /** The three properties of a column request's body. */
  lemma ColumnRequestMembers(collection: string, name: string, value: Json)
    ensures var body := ColumnRequest(collection, name, value).data.value;
      && Member(body, "className") == Some(JStr(collection))
      && Member(body, "fields") == Some(JObj([(name, value)]))
      && Member(body, "indexes") == Some(EmptyObject)
  {
    var ms := ColumnRequest(collection, name, value).data.value.members;
    var third := ("indexes", EmptyObject);
    assert ms[1..][1..] == [third];
    assert Get([third], "indexes") == Some(EmptyObject);
    assert Get(ms[1..], "indexes") == Get([third], "indexes");
  }

  /** The three properties of an index request's body. */
  lemma IndexRequestMembers(collection: string, name: string, value: Json)
    ensures var body := IndexRequest(collection, name, value).data.value;
      && Member(body, "className") == Some(JStr(collection))
      && Member(body, "fields") == Some(EmptyObject)
      && Member(body, "indexes") == Some(JObj([(name, value)]))
  {
    var ms := IndexRequest(collection, name, value).data.value.members;
    var third := ("indexes", JObj([(name, value)]));
    assert ms[1..][1..] == [third];
    assert Get([third], "indexes") == Some(third.1);
    assert Get(ms[1..], "indexes") == Get([third], "indexes");
  }

  /** `commandToAxiosRequests`: the requests that carry out one command. An update of a
      column or an index deletes it and then creates it anew; every other command is a
      single request. */
  function CommandToRequests(c: Command): (r: seq<Request>)
    ensures |r| == if c.UpdateColumn? || c.UpdateIndex? then 2 else 1
  {
    match c
    case AddCollection(d) => [Request(Post, SchemaUrl(d.className), Some(CollectionToJson(d)))]
    case DeleteCollection(n) => [Request(Delete, SchemaUrl(n), None)]
    case AddColumn(coll, n, d) => [ColumnRequest(coll, n, ColumnToJson(d))]
    case DeleteColumn(coll, n) => [ColumnRequest(coll, n, DeleteOp)]
    case UpdateColumn(coll, n, d) => [ColumnRequest(coll, n, DeleteOp), ColumnRequest(coll, n, ColumnToJson(d))]
    case AddIndex(coll, n, d) => [IndexRequest(coll, n, IndexToJson(d))]
    case DeleteIndex(coll, n) => [IndexRequest(coll, n, DeleteOp)]
    case UpdateIndex(coll, n, d) => [IndexRequest(coll, n, DeleteOp), IndexRequest(coll, n, IndexToJson(d))]
    case AddFunction(d) => [Request(Post, "/hooks/functions", Some(FunctionToJson(d)))]
    case DeleteFunction(n) => [Request(Put, FunctionUrl(n), Some(DeleteOp))]
    case UpdateFunction(d) => [Request(Put, FunctionUrl(d.functionName), Some(JObj([("url", JStr(d.url))])))]
    case AddTrigger(d) => [Request(Post, "/hooks/triggers", Some(TriggerToJson(d)))]
    case DeleteTrigger(cn, tn) => [Request(Put, TriggerUrl(cn, tn), Some(DeleteOp))]
    case UpdateTrigger(d) =>
      [Request(Put, TriggerUrl(d.className, d.triggerName), Some(JObj([("url", JStr(d.url))])))]
    case UpdateCollectionPermissions(coll, p, _) =>
      [Request(Put, SchemaUrl(coll),
               Some(JObj([("className", JStr(coll))] + Optional("classLevelPermissions", OptionalPermissions(p)))))]
  }

  /** `flatten(commands.map(commandToAxiosRequests))`, the list `execute` hands over. */
  function PlannedRequests(commands: seq<Command>): seq<Request> {
    FlattenMap(commands, CommandToRequests)
  }

  // ---------------------------------------------------------------------------
  // What the requests say

  /** The requests keep the order of the commands, and a request is planned exactly when
      it carries out one of the commands. */
  lemma PlannedRequestsOrder(a: seq<Command>, b: seq<Command>, r: Request)
    ensures PlannedRequests(a + b) == PlannedRequests(a) + PlannedRequests(b)
    ensures r in PlannedRequests(a) <==> exists c :: c in a && r in CommandToRequests(c)
  {
    FlattenMapOrder(a, b, CommandToRequests, r);
  }

  /** An update is the deletion of the column or index followed by its creation. */
  lemma UpdatesDeleteThenCreate(collection: string, name: string, column: ColumnDefinition, index: IndexDefinition)
    ensures CommandToRequests(UpdateColumn(collection, name, column))
            == CommandToRequests(DeleteColumn(collection, name)) + CommandToRequests(AddColumn(collection, name, column))
    ensures CommandToRequests(UpdateIndex(collection, name, index))
            == CommandToRequests(DeleteIndex(collection, name)) + CommandToRequests(AddIndex(collection, name, index))
  {
  }

  /** A new collection is POSTed to its own path with a body that reads back as the very
      definition, server-managed columns included. */
  lemma AddCollectionBody(d: CollectionDefinition)
    ensures var r := CommandToRequests(AddCollection(d))[0];
      && r.verb == Post && r.url == SchemaUrl(d.className) && r.data.Some?
      && CollectionFromJson(r.data.value) == Some(d)
  {
    CollectionRoundTrip(d);
  }

  /** A column request leaves the indexes alone: it names the collection and sends the
      index map empty. */
  lemma ColumnBodiesPadded(c: Command)
    requires c.AddColumn? || c.DeleteColumn? || c.UpdateColumn?
    ensures forall r | r in CommandToRequests(c) ::
      && r.verb == Put && r.url == SchemaUrl(c.collection) && r.data.Some?
      && Member(r.data.value, "className") == Some(JStr(c.collection))
      && Member(r.data.value, "indexes") == Some(EmptyObject)
  {
    var n := if c.DeleteColumn? then c.columnName else c.name;
    var rs := CommandToRequests(c);
    var values := if c.AddColumn? then [ColumnToJson(c.columnDef)]
                  else if c.DeleteColumn? then [DeleteOp]
                  else [DeleteOp, ColumnToJson(c.columnDef)];
    assert |rs| == |values| && forall i | 0 <= i < |rs| :: rs[i] == ColumnRequest(c.collection, n, values[i]);
    forall i | 0 <= i < |rs| ensures Member(rs[i].data.value, "indexes") == Some(EmptyObject)
      && Member(rs[i].data.value, "className") == Some(JStr(c.collection)) {
      ColumnRequestMembers(c.collection, n, values[i]);
    }
  }

  /** An index request leaves the columns alone: it names the collection and sends the
      field map empty. */
  lemma IndexBodiesPadded(c: Command)
    requires c.AddIndex? || c.DeleteIndex? || c.UpdateIndex?
    ensures forall r | r in CommandToRequests(c) ::
      && r.verb == Put && r.url == SchemaUrl(c.collection) && r.data.Some?
      && Member(r.data.value, "className") == Some(JStr(c.collection))
      && Member(r.data.value, "fields") == Some(EmptyObject)
  {
    var n := if c.DeleteIndex? then c.indexName else c.name;
    var rs := CommandToRequests(c);
    var values := if c.AddIndex? then [IndexToJson(c.indexDef)]
                  else if c.DeleteIndex? then [DeleteOp]
                  else [DeleteOp, IndexToJson(c.indexDef)];
    assert |rs| == |values| && forall i | 0 <= i < |rs| :: rs[i] == IndexRequest(c.collection, n, values[i]);
    forall i | 0 <= i < |rs| ensures Member(rs[i].data.value, "fields") == Some(EmptyObject)
      && Member(rs[i].data.value, "className") == Some(JStr(c.collection)) {
      IndexRequestMembers(c.collection, n, values[i]);
    }
  }

  /** A permissions change is one PUT whose body holds only the class name and, when
      there are any, the new permissions. */
  lemma PermissionsBody(collection: string, p: Option<CollectionPermissions>, previous: Option<CollectionPermissions>)
    ensures var r := CommandToRequests(UpdateCollectionPermissions(collection, p, previous));
      && |r| == 1 && r[0].verb == Put && r[0].url == SchemaUrl(collection) && r[0].data.Some?
      && r[0].data.value.JObj?
      && Keys(r[0].data.value.members) == ["className"] + (if p.Some? then ["classLevelPermissions"] else [])
      && Member(r[0].data.value, "classLevelPermissions") == OptionalPermissions(p)
  {
  }

  /** Deleting a column, an index or a hook sends the delete marker where the thing was;
      deleting a collection is a DELETE with no body. */
  lemma DeletionsSendMarker(c: Command)
    requires c.DeleteCollection? || c.DeleteColumn? || c.DeleteIndex? || c.DeleteFunction? || c.DeleteTrigger?
    ensures var r := CommandToRequests(c)[0];
      && (c.DeleteCollection? ==> r == Request(Delete, SchemaUrl(c.collectionName), None))
      && (c.DeleteColumn? ==> r.verb == Put && Member(r.data.value, "fields") == Some(JObj([(c.columnName, DeleteOp)])))
      && (c.DeleteIndex? ==> r.verb == Put && Member(r.data.value, "indexes") == Some(JObj([(c.indexName, DeleteOp)])))
      && (c.DeleteFunction? ==> r == Request(Put, FunctionUrl(c.functionName), Some(DeleteOp)))
      && (c.DeleteTrigger? ==> r == Request(Put, TriggerUrl(c.className, c.triggerName), Some(DeleteOp)))
  {
    if c.DeleteColumn? {
      ColumnRequestMembers(c.collection, c.columnName, DeleteOp);
    } else if c.DeleteIndex? {
      IndexRequestMembers(c.collection, c.indexName, DeleteOp);
    }
  }
}

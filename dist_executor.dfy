/** The newer build's executor: each planned command becomes one or two HTTP requests
    against the server's schema and hooks endpoints, and the requests are issued one at
    a time, in order, stopping at the first that fails. The server itself is a
    parameter: `server(i, r)` is its answer to `r` when `r` is the `i`-th request issued. */
module DistExecutor {
  import opened JsValues
  import opened JsonValues
  import opened SchemaTypes
  import opened SchemaJson
  import opened DistCommand
  import opened Http

  /** The columns the server manages itself; a new collection is sent without them. */
  const AutoFields: seq<string> := ["objectId", "ACL", "updatedAt", "createdAt"]

  /** `omit(obj, omissions)`: a fresh object receiving, key by key, the entries of `obj`
      whose key is not omitted. */
  method Omit<V>(obj: Obj<V>, omissions: seq<string>) returns (out: seq<(string, V)>)
    ensures out == Without(obj, omissions)
    ensures DistinctKeys(out) && KeySet(out) == KeySet(obj) - set k | k in omissions
  {
    out := [];
    var i := 0;
    while i < |obj|
      invariant 0 <= i <= |obj|
      invariant out == Without(obj[..i], omissions)
    {
      WithoutSnoc(obj[..i], obj[i], omissions);
      assert obj[..i + 1] == obj[..i] + [obj[i]];
      if obj[i].0 !in omissions {
        out := out + [obj[i]];
      }
      i := i + 1;
    }
    assert obj[..i] == obj;
    WithoutGet(obj, omissions, "");
  }

  /** The fields of a new collection as sent: everything but the server-managed ones. */
  function SentFields(fields: Obj<ColumnDefinition>): (r: Obj<ColumnDefinition>)
    ensures r == Without(fields, AutoFields)
  {
    WithoutGet(fields, AutoFields, "");
    Without(fields, AutoFields)
  }

  /** A PUT on a collection changing the single column `name`. */
  function ColumnRequest(collection: string, name: string, value: Json): Request {
    Request(Put, SchemaUrl(collection),
            Some(JObj([("className", JStr(collection)), ("fields", JObj([(name, value)]))])))
  }

  /** A PUT on a collection changing the single index `name`. */
  function IndexRequest(collection: string, name: string, value: Json): Request {
    Request(Put, SchemaUrl(collection),
            Some(JObj([("className", JStr(collection)), ("indexes", JObj([(name, value)]))])))
  }

  /** `commandToAxiosRequests`: the requests that carry out one command. An update of a
      column or an index deletes it and then creates it anew; every other command is a
      single request. */
  function CommandToRequests(c: Command): (r: seq<Request>)
    ensures |r| == if c.UpdateColumn? || c.UpdateIndex? then 2 else 1
  {
    match c
    case AddCollection(d) =>
      [Request(Post, SchemaUrl(d.className), Some(CollectionToJson(d.(fields := SentFields(d.fields)))))]
    case DeleteCollection(n) => [Request(Delete, SchemaUrl(n), None)]
    case AddColumn(coll, n, d) => [ColumnRequest(coll, n, ColumnToJson(d))]
    case DeleteColumn(coll, n) => [ColumnRequest(coll, n, DeleteOp)]
    case UpdateColumn(coll, n, d) => [ColumnRequest(coll, n, DeleteOp), ColumnRequest(coll, n, ColumnToJson(d))]
    case AddIndex(coll, n, d) => [IndexRequest(coll, n, IndexToJson(d))]
    case DeleteIndex(coll, n) => [IndexRequest(coll, n, DeleteOp)]
    case UpdateIndex(coll, n, d) => [IndexRequest(coll, n, DeleteOp), IndexRequest(coll, n, IndexToJson(d))]
    case AddFunction(d) => [Request(Post, "/hooks/functions", Some(FunctionToJson(d)))]
    case DeleteFunction(n) => [Request(Put, FunctionUrl(n), Some(DeleteOp))]
    case UpdateFunction(d) => [Request(Put, FunctionUrl(d.functionName), Some(JObj([("url", JStr(d.url))])))]
    case AddTrigger(d) => [Request(Post, "/hooks/triggers", Some(TriggerToJson(d)))]
    case DeleteTrigger(cn, tn) => [Request(Put, TriggerUrl(cn, tn), Some(DeleteOp))]
    case UpdateTrigger(d) =>
      [Request(Put, TriggerUrl(d.className, d.triggerName), Some(JObj([("url", JStr(d.url))])))]
    case UpdateCollectionPermissions(coll, p, _) =>
      [Request(Put, SchemaUrl(coll),
               Some(JObj([("className", JStr(coll))] + Optional("classLevelPermissions", OptionalPermissions(p)))))]
  }

  /** `flatten(commands.map(commandToAxiosRequests))`: every command's requests, command
      after command. */
  function PlannedRequests(commands: seq<Command>): seq<Request> {
    FlattenMap(commands, CommandToRequests)
  }

  /** The requests `0 .. n-1` were all answered with success. */
  predicate SucceedsUpTo(requests: seq<Request>, server: (nat, Request) -> Outcome, n: nat)
    requires n <= |requests|
  {
    forall i | 0 <= i < n :: server(i, requests[i]).Success?
  }

  /** `executeRequests`: the requests are issued in order, each once the one before has
      succeeded. The first failure stops the run and is passed on to the caller; the
      requests issued are always a prefix of the list, ending at the failing one. */
  method ExecuteRequests(requests: seq<Request>, server: (nat, Request) -> Outcome)
    returns (issued: seq<Request>, error: Option<Outcome>)
    ensures error.None? ==> issued == requests && SucceedsUpTo(requests, server, |requests|)
    ensures error.Some? ==>
      && 0 < |issued| <= |requests| && issued == requests[..|issued|]
      && SucceedsUpTo(requests, server, |issued| - 1)
      && error.value == server(|issued| - 1, requests[|issued| - 1]) && error.value.Failure?
  {
    issued := [];
    error := None;
    var i := 0;
    while i < |requests|
      invariant 0 <= i <= |requests|
      invariant issued == requests[..i]
      invariant SucceedsUpTo(requests, server, i)
    {
      var outcome := server(i, requests[i]);
      issued := issued + [requests[i]];
      assert issued == requests[..i + 1];
      if outcome.Failure? {
        error := Some(outcome);
        return;
      }
      i := i + 1;
    }
    assert requests[..i] == requests;
  }

  /** `execute`: the requests for all commands, run as `executeRequests` runs them. */
  method Execute(commands: seq<Command>, server: (nat, Request) -> Outcome)
    returns (issued: seq<Request>, error: Option<Outcome>)
    ensures var requests := PlannedRequests(commands);
      && (error.None? ==> issued == requests && SucceedsUpTo(requests, server, |requests|))
      && (error.Some? ==>
          && 0 < |issued| <= |requests| && issued == requests[..|issued|]
          && SucceedsUpTo(requests, server, |issued| - 1)
          && error.value == server(|issued| - 1, requests[|issued| - 1]) && error.value.Failure?)
  {
    issued, error := ExecuteRequests(PlannedRequests(commands), server);
  }

  // ---------------------------------------------------------------------------
  // What the requests say

  /** The requests keep the order of the commands: those of a run of commands followed
      by another are the first run's requests followed by the second's, and a request
      is planned exactly when it carries out one of the commands. */
  lemma PlannedRequestsOrder(a: seq<Command>, b: seq<Command>, r: Request)
    ensures PlannedRequests(a + b) == PlannedRequests(a) + PlannedRequests(b)
    ensures r in PlannedRequests(a) <==> exists c :: c in a && r in CommandToRequests(c)
  {
    FlattenMapOrder(a, b, CommandToRequests, r);
  }

  /** An update is the deletion of the column or index followed by its creation. */
  lemma UpdatesDeleteThenCreate(collection: string, name: string, column: ColumnDefinition, index: IndexDefinition)
    ensures CommandToRequests(UpdateColumn(collection, name, column))
            == CommandToRequests(DeleteColumn(collection, name)) + CommandToRequests(AddColumn(collection, name, column))
    ensures CommandToRequests(UpdateIndex(collection, name, index))
            == CommandToRequests(DeleteIndex(collection, name)) + CommandToRequests(AddIndex(collection, name, index))
  {
  }

  /** A new collection is POSTed to its own path; the body reads back as its definition
      without the server-managed columns, every other column kept with its definition. */
  lemma AddCollectionBody(d: CollectionDefinition)
    ensures var r := CommandToRequests(AddCollection(d))[0];
      && r.verb == Post && r.url == SchemaUrl(d.className) && r.data.Some?
      && CollectionFromJson(r.data.value) == Some(d.(fields := Without(d.fields, AutoFields)))
      && (forall k :: Get(Without(d.fields, AutoFields), k) == if k in AutoFields then None else Get(d.fields, k))
  {
    CollectionRoundTrip(d.(fields := SentFields(d.fields)));
    forall k ensures Get(Without(d.fields, AutoFields), k) == if k in AutoFields then None else Get(d.fields, k) {
      WithoutGet(d.fields, AutoFields, k);
    }
  }

  /** Every request for a change to an existing collection is a PUT on that collection
      naming it in its body. */
  lemma CollectionChangesTarget(c: Command)
    requires c.AddColumn? || c.DeleteColumn? || c.UpdateColumn? || c.AddIndex? || c.DeleteIndex? || c.UpdateIndex?
             || c.UpdateCollectionPermissions?
    ensures forall r | r in CommandToRequests(c) ::
      r.verb == Put && r.url == SchemaUrl(c.collection) && r.data.Some?
      && Member(r.data.value, "className") == Some(JStr(c.collection))
  {
  }

  /** Deleting a column, an index or a hook sends the delete marker where the thing was;
      deleting a collection is a DELETE with no body. */
  lemma DeletionsSendMarker(c: Command)
    requires c.DeleteCollection? || c.DeleteColumn? || c.DeleteIndex? || c.DeleteFunction? || c.DeleteTrigger?
    ensures var r := CommandToRequests(c)[0];
      && (c.DeleteCollection? ==> r == Request(Delete, SchemaUrl(c.collectionName), None))
      && (c.DeleteColumn? ==> r.verb == Put && Member(r.data.value, "fields") == Some(JObj([(c.columnName, DeleteOp)])))
      && (c.DeleteIndex? ==> r.verb == Put && Member(r.data.value, "indexes") == Some(JObj([(c.indexName, DeleteOp)])))
      && (c.DeleteFunction? ==> r == Request(Put, FunctionUrl(c.functionName), Some(DeleteOp)))
      && (c.DeleteTrigger? ==> r == Request(Put, TriggerUrl(c.className, c.triggerName), Some(DeleteOp)))
  {
  }

  /** Updating a hook sends only its new url, to the path of the hook it names. */
  lemma HookUpdatesSendUrl(f: FunctionDefinition, t: TriggerDefinition)
    ensures var r := CommandToRequests(UpdateFunction(f))[0];
      && r.verb == Put && r.url == FunctionUrl(f.functionName)
      && r.data.Some? && r.data.value.JObj? && Keys(r.data.value.members) == ["url"]
      && Member(r.data.value, "url") == Some(JStr(f.url))
    ensures var r := CommandToRequests(UpdateTrigger(t))[0];
      && r.verb == Put && r.url == TriggerUrl(t.className, t.triggerName)
      && r.data.Some? && r.data.value.JObj? && Keys(r.data.value.members) == ["url"]
      && Member(r.data.value, "url") == Some(JStr(t.url))
  {
  }
}

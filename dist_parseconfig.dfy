/** The command-line front end of the newer build, without its I/O: turning a parsed
    schema file into the schema the reconciler works on, resolving the options against
    the environment, and deciding how the process ends when an error reaches the top. */
module DistParseConfig {
  import opened JsValues
  import opened JsonValues
  import opened SchemaTypes
  import opened DistErrors
  import DistActions

  // ---------------------------------------------------------------------------
  // `parseSchemaJSON`

  /** An index as a schema file stores it: its columns under `key`, and the options it
      was created with. */
  datatype StoredIndex = StoredIndex(key: IndexDefinition, options: Obj<Json>)

  type StoredCollection = Collection<StoredIndex>

  /** A schema file once `JSON.parse` has read it. */
  datatype StoredSchema = StoredSchema(
    collections: seq<StoredCollection>,
    functions: seq<FunctionDefinition>,
    triggers: seq<TriggerDefinition>)

  /** What `Object.entries(undefined)` throws when a collection has no `indexes`. */
  const NoIndexesMessage := "Cannot convert undefined or null to object"

  /** Each index name paired with the columns stored under its `key`. */
  function Simplified(indexes: seq<(string, StoredIndex)>): seq<(string, IndexDefinition)> {
    seq(|indexes|, i requires 0 <= i < |indexes| => (indexes[i].0, indexes[i].1.key))
  }

  function SimpleIndexes(indexes: Obj<StoredIndex>): Obj<IndexDefinition> {
    assert forall i | 0 <= i < |indexes| :: Simplified(indexes)[i].0 == indexes[i].0;
    Simplified(indexes)
  }

  /** A collection with its indexes reduced to their columns. */
  function Munged(c: StoredCollection): CollectionDefinition
    requires c.indexes.Some?
  {
    Collection(c.className, c.fields, c.classLevelPermissions, Some(SimpleIndexes(c.indexes.value)))
  }

  predicate AllHaveIndexes(collections: seq<StoredCollection>) {
    forall i | 0 <= i < |collections| :: collections[i].indexes.Some?
  }

  /** What `parseSchemaJSON` returns or throws for a parsed file. */
  function Parsed(stored: StoredSchema): Result<Schema, string> {
    var cs := stored.collections;
    if !AllHaveIndexes(cs) then Err(NoIndexesMessage)
    else Ok(Schema(seq(|cs|, i requires 0 <= i < |cs| => Munged(cs[i])), stored.functions, stored.triggers))
  }

  /** The inner loop: `simpleIndices[key] = value.key` for each entry, in order. */
  method SimplifyIndexes(indexes: Obj<StoredIndex>) returns (simple: Obj<IndexDefinition>)
    ensures simple == SimpleIndexes(indexes)
  {
    var out: seq<(string, IndexDefinition)> := [];
    var i := 0;
    while i < |indexes|
      invariant 0 <= i <= |indexes|
      invariant |out| == i && forall j | 0 <= j < i :: out[j] == (indexes[j].0, indexes[j].1.key)
    {
      out := out + [(indexes[i].0, indexes[i].1.key)];
      i := i + 1;
    }
    assert out == SimpleIndexes(indexes);
    simple := out;
  }

  /** `parseSchemaJSON` after `JSON.parse`: every collection's index map replaced, one
      collection at a time, by its simplified form. */
  method ParseSchemaJson(stored: StoredSchema) returns (r: Result<Schema, string>)
    ensures r == Parsed(stored)
  {
    var cs := stored.collections;
    var out: seq<CollectionDefinition> := [];
    var i := 0;
    while i < |cs|
      invariant 0 <= i <= |cs|
      invariant forall j | 0 <= j < i :: cs[j].indexes.Some?
      invariant |out| == i && forall j | 0 <= j < i :: out[j] == Munged(cs[j])
    {
      if cs[i].indexes.None? {
        return Err(NoIndexesMessage);
      }
      var simple := SimplifyIndexes(cs[i].indexes.value);
      out := out + [Collection(cs[i].className, cs[i].fields, cs[i].classLevelPermissions, Some(simple))];
      i := i + 1;
    }
    assert out == seq(|cs|, i requires 0 <= i < |cs| => Munged(cs[i]));
    return Ok(Schema(out, stored.functions, stored.triggers));
  }

  /** A simplified index map has the same names, and each name maps to the columns that
      were stored under its `key`. */
  lemma {:induction false} SimplifiedGet(indexes: seq<(string, StoredIndex)>, k: string)
    ensures KeySet(Simplified(indexes)) == KeySet(indexes)
    ensures Get(Simplified(indexes), k) == if Get(indexes, k).Some? then Some(Get(indexes, k).value.key) else None
  {
    if indexes != [] {
      assert Simplified(indexes)[1..] == Simplified(indexes[1..]);
      SimplifiedGet(indexes[1..], k);
    }
  }

  /** Parsing keeps the number and order of the collections, everything in them but the
      indexes, and the hooks; each index name keeps only its columns. */
  lemma ParsedKeepsShape(stored: StoredSchema, i: int, k: string)
    requires Parsed(stored).Ok? && 0 <= i < |stored.collections|
    ensures var s := Parsed(stored).value;
      && |s.collections| == |stored.collections|
      && s.functions == stored.functions && s.triggers == stored.triggers
      && var c, d := s.collections[i], stored.collections[i];
      && c.className == d.className && c.fields == d.fields && c.classLevelPermissions == d.classLevelPermissions
      && c.indexes.Some? && d.indexes.Some?
      && KeySet(c.indexes.value) == KeySet(d.indexes.value)
      && Get(c.indexes.value, k) == if Get(d.indexes.value, k).Some? then Some(Get(d.indexes.value, k).value.key) else None
  {
    SimplifiedGet(stored.collections[i].indexes.value, k);
  }

  /** The file is refused exactly when one of its collections has no index map. */
  lemma ParseFailsWithoutIndexes(stored: StoredSchema)
    ensures Parsed(stored).Err? <==> exists i | 0 <= i < |stored.collections| :: stored.collections[i].indexes.None?
    ensures Parsed(stored).Err? ==> Parsed(stored).error == NoIndexesMessage
  {
  }

  // ---------------------------------------------------------------------------
  // `validateOptions`

  /** The options as given on the command line; a value not given is `undefined`. */
  datatype CommandLine = CommandLine(
    applicationId: Option<string>,
    key: Option<string>,
    hookUrl: Option<string>,
    ignoreIndexes: bool,
    disallowColumnRedefine: bool,
    disallowIndexRedefine: bool)

  /** `process.env[name]` */
  function EnvVar(env: map<string, string>, name: string): Option<string> {
    if name in env then Some(env[name]) else None
  }

  /** `a || b` on values that may be `undefined`. */
  function Or(a: Option<string>, b: Option<string>): (r: Option<string>)
    ensures Truthy(a) ==> r == a
    ensures !Truthy(a) ==> r == b
  {
    if Truthy(a) then a else b
  }

  function ApplicationId(cli: CommandLine, env: map<string, string>): Option<string> {
    Or(cli.applicationId, EnvVar(env, "PARSE_APPLICATION_ID"))
  }

  function MasterKey(cli: CommandLine, env: map<string, string>): Option<string> {
    Or(cli.key, EnvVar(env, "PARSE_MASTER_KEY"))
  }

  /** `options.hookUrl || process.env.PARSE_HOOK_URL || null`, with `null` as `None`. */
  function HookUrl(cli: CommandLine, env: map<string, string>): Option<string> {
    var u := Or(cli.hookUrl, EnvVar(env, "PARSE_HOOK_URL"));
    if Truthy(u) then u else None
  }

  /** `validateOptions`: the application id and the master key must be found on the
      command line or in the environment, the id being looked for first. */
  function ValidateOptions(cli: CommandLine, env: map<string, string>): (r: Result<DistActions.Options, CliError>)
    ensures r.Ok? <==> ApplicationId(cli, env).Some? && MasterKey(cli, env).Some?
    ensures r.Err? ==> r.error.exitCode == 1 && r.error.shouldExit && r.error.kind.MissingParameter?
  {
    var applicationId := ApplicationId(cli, env);
    var key := MasterKey(cli, env);
    if applicationId.None? then Err(MissingParameterError("Application id", "-i", "PARSE_APPLICATION_ID"))
    else if key.None? then Err(MissingParameterError("Parse Master Key", "-k", "PARSE_MASTER_KEY"))
    else Ok(DistActions.Options(applicationId.value, key.value, HookUrl(cli, env),
                                cli.ignoreIndexes, cli.disallowColumnRedefine, cli.disallowIndexRedefine))
  }

  /** A non-empty command-line value wins over the environment; otherwise the
      environment's value is taken as it is, even when empty. The hook url falls back
      on the environment and then on `null`. The three flags pass through. */
  lemma OptionsResolved(cli: CommandLine, env: map<string, string>)
    requires ValidateOptions(cli, env).Ok?
    ensures var o := ValidateOptions(cli, env).value;
      && o.applicationId == (if Truthy(cli.applicationId) then cli.applicationId.value else env["PARSE_APPLICATION_ID"])
      && o.key == (if Truthy(cli.key) then cli.key.value else env["PARSE_MASTER_KEY"])
      && o.hookUrl == (if Truthy(cli.hookUrl) then cli.hookUrl
                       else if Truthy(EnvVar(env, "PARSE_HOOK_URL")) then EnvVar(env, "PARSE_HOOK_URL")
                       else None)
      && o.ignoreIndexes == cli.ignoreIndexes
      && o.disallowColumnRedefine == cli.disallowColumnRedefine
      && o.disallowIndexRedefine == cli.disallowIndexRedefine
  {
  }

  /** The options are refused exactly when the id or the key is found nowhere; the id's
      absence is reported even when the key is missing too. */
  lemma MissingOptionsReported(cli: CommandLine, env: map<string, string>)
    ensures ValidateOptions(cli, env).Err? <==>
      (!Truthy(cli.applicationId) && "PARSE_APPLICATION_ID" !in env) || (!Truthy(cli.key) && "PARSE_MASTER_KEY" !in env)
    ensures !Truthy(cli.applicationId) && "PARSE_APPLICATION_ID" !in env ==>
      ValidateOptions(cli, env) == Err(MissingParameterError("Application id", "-i", "PARSE_APPLICATION_ID"))
    ensures (Truthy(cli.applicationId) || "PARSE_APPLICATION_ID" in env) && !Truthy(cli.key) && "PARSE_MASTER_KEY" !in env ==>
      ValidateOptions(cli, env) == Err(MissingParameterError("Parse Master Key", "-k", "PARSE_MASTER_KEY"))
  {
  }

  // ---------------------------------------------------------------------------
  // `handleError`

  /** What reaches `handleError`: one of the tool's own errors, or anything else. */
  datatype Thrown = Cli(error: CliError) | Unexpected(description: string)

  /** The status the process exits with, or `None` when it does not exit. */
  function ExitStatus(e: Thrown): (r: Option<int>)
    ensures r.None? <==> e.Cli? && !e.error.shouldExit
    ensures e.Unexpected? ==> r == Some(2)
  {
    match e
    case Cli(error) => if error.shouldExit then Some(error.exitCode) else None
    case Unexpected(_) => Some(2)
  }

  /** Every error the tool raises itself ends the process with status 1, and anything
      else with status 2, so the status tells the two apart. */
  lemma ExitStatuses(paramName: string, flag: string, envVar: string, diff: seq<DistCommand.Command>,
                     errors: seq<string>, command: DistCommand.Command, description: string)
    ensures ExitStatus(Cli(MissingParameterError(paramName, flag, envVar))) == Some(1)
    ensures ExitStatus(Cli(OutOfSyncError(diff))) == Some(1)
    ensures ExitStatus(Cli(InvalidSchemaError(errors))) == Some(1)
    ensures ExitStatus(Cli(DisallowedCommandError(command))) == Some(1)
    ensures ExitStatus(Unexpected(description)) == Some(2)
  {
  }

  /** A tool error that asks not to stop leaves the process running; one that asks to
      stop ends it with its own status. */
  lemma ExitStatusOfCliError(error: CliError)
    ensures ExitStatus(Cli(error)).Some? <==> error.shouldExit
    ensures error.shouldExit ==> ExitStatus(Cli(error)) == Some(error.exitCode)
  {
  }
}

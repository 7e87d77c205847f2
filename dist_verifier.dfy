/** The newer build's schema verifier. It walks the collections, functions and triggers
    and collects every problem it finds, never stopping at the first: each helper loops
    over its input, pushing messages into a local list and remembering the names it has
    seen in a set.

    Each helper is a method whose loop is proved to compute a specification function,
    and the functions are characterised by lemmas: which messages appear, how many
    repeat messages there are, and exactly which schemas are accepted. */
module DistVerifier {
  import opened JsValues
  import opened SchemaTypes
  import opened Duplicates
  import opened DistValidationError

  // ---------------------------------------------------------------------------
  // Index columns

  /** Columns Parse adds by itself, which an index may always name. */
  const ReservedColumns: seq<string> := ["_id", "_updated_at", "_created_at", "_session_token"]

  /** `indexCol.replace(/^_p_/, '')`: a pointer column is stored as `_p_<field>`. */
  function StripPointer(indexCol: string): (r: string)
    ensures StartsWith(indexCol, "_p_") ==> "_p_" + r == indexCol
    ensures !StartsWith(indexCol, "_p_") ==> r == indexCol
  {
    if StartsWith(indexCol, "_p_") then
      assert indexCol == indexCol[..3] + indexCol[3..];
      indexCol[3..]
    else indexCol
  }

  /** An index column the verifier accepts: a reserved column, or one whose name (without
      a pointer prefix) is a field of the collection. The lookup with `find` yields the
      matching name itself, so an empty name counts as missing even when it is a field. */
  predicate IndexColumnAccepted(c: CollectionDefinition, indexCol: string) {
    indexCol in ReservedColumns || (StripPointer(indexCol) in KeySet(c.fields) && StripPointer(indexCol) != "")
  }

  function IndexColumnStep(c: CollectionDefinition, indexName: string, indexCol: string): seq<ValidationError> {
    if indexCol in ReservedColumns then []
    else
      var trueName := StripPointer(indexCol);
      if trueName !in KeySet(c.fields) || trueName == "" then [InvalidIndex(indexName, indexCol, c.className)] else []
  }

  function IndexColumnErrors(c: CollectionDefinition, indexName: string, indexDef: seq<(string, int)>): seq<ValidationError> {
    FlatMap(indexDef, (col: (string, int)) => IndexColumnStep(c, indexName, col.0))
  }

  /** `verifyCollectionIndexes`: a missing index map is read as `{}`. */
  function IndexErrors(c: CollectionDefinition): seq<ValidationError> {
    FlatMap(OrEmpty(c.indexes), (e: (string, IndexDefinition)) => IndexColumnErrors(c, e.0, e.1))
  }

  // ---------------------------------------------------------------------------
  // Permissions

  function RoleStep(c: CollectionDefinition, permName: string, role: (string, bool)): seq<ValidationError> {
    if role.1 != true then [InvalidPermission(permName, c.className)] else []
  }

  function RoleErrors(c: CollectionDefinition, permName: string, perm: seq<(string, bool)>): seq<ValidationError> {
    FlatMap(perm, v => RoleStep(c, permName, v))
  }

  /** `verifyPermissions`: one message per role value that is not `true`; missing
      permissions are read as `{}`. */
  function PermissionErrors(c: CollectionDefinition): seq<ValidationError> {
    FlatMap(OrEmpty(c.classLevelPermissions), (e: (string, RolePermissions)) => RoleErrors(c, e.0, e.1))
  }

  // ---------------------------------------------------------------------------
  // Uniqueness of index and field names

  function IndexUniquenessErrors(c: CollectionDefinition): seq<ValidationError> {
    RepeatErrors(Keys(OrEmpty(c.indexes)), k => DuplicateIndex(k, c.className))
  }

  function ColumnUniquenessErrors(c: CollectionDefinition): seq<ValidationError> {
    RepeatErrors(Keys(c.fields), k => DuplicateColumn(k, c.className))
  }

  /** The keys of an object are distinct. */
  lemma KeysDistinct<V>(o: Obj<V>)
    ensures Distinct(Keys(o))
  {
  }

  // ---------------------------------------------------------------------------
  // Collections

  /** The four checks made on each collection, in order. */
  function CollectionChecks(c: CollectionDefinition): seq<ValidationError> {
    IndexErrors(c) + IndexUniquenessErrors(c) + ColumnUniquenessErrors(c) + PermissionErrors(c)
  }

  function ClassNameOf(c: CollectionDefinition): string { c.className }

  /** `verifyCollections`: the checks of each collection, then a repeat message when its
      class name was met before. */
  function CollectionErrors(cs: seq<CollectionDefinition>): seq<ValidationError> {
    Walk(cs, ClassNameOf, CollectionChecks, DuplicateClass)
  }

  /** The class names the loop remembers are those of the schema. */
  lemma ClassNamesProject(cs: seq<CollectionDefinition>)
    ensures Project(cs, ClassNameOf) == ClassNames(cs)
  {
  }

  // ---------------------------------------------------------------------------
  // Functions

  function FunctionNameOf(f: FunctionDefinition): string { f.functionName }

  /** A function with an empty name or url is reported. */
  predicate FunctionAccepted(f: FunctionDefinition) {
    f.functionName != "" && f.url != ""
  }

  function FunctionChecks(f: FunctionDefinition): seq<ValidationError> {
    if f.functionName == "" || f.url == "" then [InvalidFunction(f)] else []
  }

  /** `verifyFunctions`. */
  function FunctionErrors(fs: seq<FunctionDefinition>): seq<ValidationError> {
    Walk(fs, FunctionNameOf, FunctionChecks, DuplicateFunction)
  }

  // ---------------------------------------------------------------------------
  // Triggers

  /** The key under which repeated triggers are detected. */
  function TriggerKey(t: TriggerDefinition): string {
    t.className + "." + t.triggerName
  }

  /** A trigger the verifier accepts: a known kind, on a declared class, with no empty
      name, class or url. */
  predicate TriggerAccepted(t: TriggerDefinition, collections: seq<string>) {
    t.triggerName in TriggerTypes && t.className in collections
    && t.triggerName != "" && t.className != "" && t.url != ""
  }

  /** `verifyTrigger`: the unknown-kind, unknown-class and empty-field checks are made
      independently, in that order. */
  function VerifyTrigger(t: TriggerDefinition, collections: seq<string>): (r: seq<ValidationError>)
    ensures r == [] <==> TriggerAccepted(t, collections)
    ensures |r| <= 3
    ensures forall e | e in r :: Invalid(e)
  {
    InvalidMessages("", "", "", "", t, FunctionDefinition("", ""));
    (if t.triggerName !in TriggerTypes then [InvalidTriggerName(t)] else [])
    + (if t.className !in collections then [InvalidTriggerClass(t)] else [])
    + (if t.triggerName == "" || t.className == "" || t.url == "" then [InvalidTrigger(t)] else [])
  }

  /** `verifyTriggers`, given the declared class names. */
  function TriggerErrors(ts: seq<TriggerDefinition>, collections: seq<string>): seq<ValidationError> {
    Walk(ts, TriggerKey, t => VerifyTrigger(t, collections), DuplicateTrigger)
  }

  // ---------------------------------------------------------------------------
  // The schema

  /** `verifySchema`: collection problems, then function problems, then trigger
      problems, each list computed in full. */
  function SchemaErrors(s: Schema): seq<ValidationError> {
    CollectionErrors(s.collections) + FunctionErrors(s.functions)
    + TriggerErrors(s.triggers, ClassNames(s.collections))
  }

  // ---------------------------------------------------------------------------
  // The loops

  /** The inner loop of `verifyCollectionIndexes`, over the columns of one index. */
  method VerifyIndexColumns(c: CollectionDefinition, indexName: string, indexDef: IndexDefinition)
    returns (errors: seq<ValidationError>)
    ensures errors == IndexColumnErrors(c, indexName, indexDef)
  {
    errors := [];
    var j := 0;
    while j < |indexDef|
      invariant 0 <= j <= |indexDef|
      invariant errors == FlatMap(indexDef[..j], (col: (string, int)) => IndexColumnStep(c, indexName, col.0))
    {
      var indexCol := indexDef[j].0;
      if indexCol !in ReservedColumns {
        var trueName := StripPointer(indexCol);
        if trueName !in KeySet(c.fields) || trueName == "" {
          errors := errors + [InvalidIndex(indexName, indexCol, c.className)];
        }
      }
      FlatMapSnoc(indexDef, j, (col: (string, int)) => IndexColumnStep(c, indexName, col.0));
      j := j + 1;
    }
    assert indexDef[..j] == indexDef;
  }

  /** `verifyCollectionIndexes`: each index definition is looked up by its name. */
  method VerifyCollectionIndexes(c: CollectionDefinition) returns (errors: seq<ValidationError>)
    ensures errors == IndexErrors(c)
  {
    var indexes := OrEmpty(c.indexes);
    errors := [];
    var i := 0;
    while i < |indexes|
      invariant 0 <= i <= |indexes|
      invariant errors == FlatMap(indexes[..i], (e: (string, IndexDefinition)) => IndexColumnErrors(c, e.0, e.1))
    {
      var indexName := indexes[i].0;
      GetEntry(indexes, indexName, indexes[i].1);
      var indexDef := Get(indexes, indexName).value;
      var found := VerifyIndexColumns(c, indexName, indexDef);
      errors := errors + found;
      FlatMapSnoc(indexes, i, (e: (string, IndexDefinition)) => IndexColumnErrors(c, e.0, e.1));
      i := i + 1;
    }
    assert indexes[..i] == indexes;
  }

  /** The inner loop of `verifyPermissions`, over the role values of one operation. */
  method VerifyRoles(c: CollectionDefinition, permName: string, perm: RolePermissions)
    returns (errors: seq<ValidationError>)
    ensures errors == RoleErrors(c, permName, perm)
  {
    errors := [];
    var j := 0;
    while j < |perm|
      invariant 0 <= j <= |perm|
      invariant errors == FlatMap(perm[..j], v => RoleStep(c, permName, v))
    {
      if perm[j].1 != true {
        errors := errors + [InvalidPermission(permName, c.className)];
      }
      FlatMapSnoc(perm, j, v => RoleStep(c, permName, v));
      j := j + 1;
    }
    assert perm[..j] == perm;
  }

  method VerifyPermissions(c: CollectionDefinition) returns (errors: seq<ValidationError>)
    ensures errors == PermissionErrors(c)
  {
    var perms := OrEmpty(c.classLevelPermissions);
    errors := [];
    var i := 0;
    while i < |perms|
      invariant 0 <= i <= |perms|
      invariant errors == FlatMap(perms[..i], (e: (string, RolePermissions)) => RoleErrors(c, e.0, e.1))
    {
      var found := VerifyRoles(c, perms[i].0, perms[i].1);
      errors := errors + found;
      FlatMapSnoc(perms, i, (e: (string, RolePermissions)) => RoleErrors(c, e.0, e.1));
      i := i + 1;
    }
    assert perms[..i] == perms;
  }

  /** `verifyIndexUniqueness`: it walks the keys of an object, which never repeat, so it
      never reports anything. */
  method VerifyIndexUniqueness(c: CollectionDefinition) returns (errors: seq<ValidationError>)
    ensures errors == IndexUniquenessErrors(c)
    ensures errors == []
  {
    var keys := Keys(OrEmpty(c.indexes));
    errors := [];
    var names: set<string> := {};
    var i := 0;
    while i < |keys|
      invariant 0 <= i <= |keys|
      invariant names == Elements(keys[..i])
      invariant errors == RepeatErrors(keys[..i], k => DuplicateIndex(k, c.className))
    {
      var index := keys[i];
      assert keys[..i + 1][..i] == keys[..i];
      ElementsMember(keys[..i], index);
      if index in names {
        errors := errors + [DuplicateIndex(index, c.className)];
      } else {
        names := names + {index};
      }
      i := i + 1;
    }
    assert keys[..i] == keys;
    KeysDistinct(OrEmpty(c.indexes));
    RepeatErrorsCount(keys, k => DuplicateIndex(k, c.className));
  }

  /** `verifyColumnUniqueness`: the same walk over the field names, equally silent. */
  method VerifyColumnUniqueness(c: CollectionDefinition) returns (errors: seq<ValidationError>)
    ensures errors == ColumnUniquenessErrors(c)
    ensures errors == []
  {
    var keys := Keys(c.fields);
    errors := [];
    var names: set<string> := {};
    var i := 0;
    while i < |keys|
      invariant 0 <= i <= |keys|
      invariant names == Elements(keys[..i])
      invariant errors == RepeatErrors(keys[..i], k => DuplicateColumn(k, c.className))
    {
      var field := keys[i];
      assert keys[..i + 1][..i] == keys[..i];
      ElementsMember(keys[..i], field);
      if field in names {
        errors := errors + [DuplicateColumn(field, c.className)];
      } else {
        names := names + {field};
      }
      i := i + 1;
    }
    assert keys[..i] == keys;
    KeysDistinct(c.fields);
    RepeatErrorsCount(keys, k => DuplicateColumn(k, c.className));
  }

  /** The four checks the collection loop makes on each collection, in order. */
  method VerifyCollection(coll: CollectionDefinition) returns (errors: seq<ValidationError>)
    ensures errors == CollectionChecks(coll)
  {
    var indexErrors := VerifyCollectionIndexes(coll);
    var indexUniqueness := VerifyIndexUniqueness(coll);
    var columnUniqueness := VerifyColumnUniqueness(coll);
    var permissionErrors := VerifyPermissions(coll);
    errors := indexErrors + indexUniqueness + columnUniqueness + permissionErrors;
  }

  /** A stand-in for `CollectionChecks` that agrees with it wherever `CollectionChecks` is
      applied. */
  lemma ChecksView() returns (chk: CollectionDefinition -> seq<ValidationError>)
    ensures forall c {:trigger CollectionChecks(c)} :: chk(c) == CollectionChecks(c)
  {
    chk := CollectionChecks;
  }

  /** The callback `verifyCollections` runs on each collection: its checks, then a repeat
      message or the name remembered. It is stated for any `chk` that agrees with
      `CollectionChecks`. */
  method VisitCollection(coll: CollectionDefinition, names: set<string>, errors: seq<ValidationError>,
                         ghost done: seq<CollectionDefinition>,
                         ghost chk: CollectionDefinition -> seq<ValidationError>)
    returns (names': set<string>, errors': seq<ValidationError>)
    requires forall c {:trigger CollectionChecks(c)} :: chk(c) == CollectionChecks(c)
    requires names == Elements(Project(done, ClassNameOf))
    requires errors == Walk(done, ClassNameOf, chk, DuplicateClass)
    ensures names' == Elements(Project(done + [coll], ClassNameOf))
    ensures errors' == Walk(done + [coll], ClassNameOf, chk, DuplicateClass)
  {
    WalkAppend(done, coll, ClassNameOf, chk, DuplicateClass);
    ElementsMember(Project(done, ClassNameOf), coll.className);
    var checks := VerifyCollection(coll);
    errors' := errors + checks;
    names' := names;
    if coll.className in names {
      errors' := errors' + [DuplicateClass(coll)];
    } else {
      names' := names + {coll.className};
    }
  }

  /** `verifyCollections`. The loop is proved against `Walk` with a stand-in for
      `CollectionChecks`, so that the messages of the collections already visited are not
      unfolded at every pass. */
  method VerifyCollections(cs: seq<CollectionDefinition>) returns (errors: seq<ValidationError>)
    ensures errors == CollectionErrors(cs)
  {
    ghost var chk := ChecksView();
    errors := [];
    var names: set<string> := {};
    var i := 0;
    while i < |cs|
      invariant 0 <= i <= |cs|
      invariant names == Elements(Project(cs[..i], ClassNameOf))
      invariant errors == Walk(cs[..i], ClassNameOf, chk, DuplicateClass)
    {
      assert cs[..i + 1] == cs[..i] + [cs[i]];
      names, errors := VisitCollection(cs[i], names, errors, cs[..i], chk);
      i := i + 1;
    }
    assert cs[..i] == cs;
    WalkCongruence(cs, ClassNameOf, chk, CollectionChecks, DuplicateClass);
  }

  /** `verifyFunctions`. */
  method VerifyFunctions(fs: seq<FunctionDefinition>) returns (errors: seq<ValidationError>)
    ensures errors == FunctionErrors(fs)
  {
    errors := [];
    var names: set<string> := {};
    var i := 0;
    while i < |fs|
      invariant 0 <= i <= |fs|
      invariant names == Elements(Project(fs[..i], FunctionNameOf))
      invariant errors == FunctionErrors(fs[..i])
    {
      var func := fs[i];
      WalkSnoc(fs, i, FunctionNameOf, FunctionChecks, DuplicateFunction);
      ProjectSnoc(fs, i, FunctionNameOf);
      ElementsMember(Project(fs[..i], FunctionNameOf), func.functionName);
      var checks: seq<ValidationError> := [];
      if func.functionName == "" || func.url == "" {
        checks := [InvalidFunction(func)];
      }
      var repeat: seq<ValidationError> := [];
      if func.functionName in names {
        repeat := [DuplicateFunction(func)];
      } else {
        names := names + {func.functionName};
      }
      errors := errors + checks + repeat;
      i := i + 1;
    }
    assert fs[..i] == fs;
  }

  /** `verifyTriggers`: the class names are those of the declared collections. */
  method VerifyTriggers(ts: seq<TriggerDefinition>, collections: seq<CollectionDefinition>)
    returns (errors: seq<ValidationError>)
    ensures errors == TriggerErrors(ts, ClassNames(collections))
  {
    var collectionNames := ClassNames(collections);
    errors := [];
    var names: set<string> := {};
    var i := 0;
    while i < |ts|
      invariant 0 <= i <= |ts|
      invariant names == Elements(Project(ts[..i], TriggerKey))
      invariant errors == TriggerErrors(ts[..i], collectionNames)
    {
      var trigger := ts[i];
      WalkSnoc(ts, i, TriggerKey, t => VerifyTrigger(t, collectionNames), DuplicateTrigger);
      ProjectSnoc(ts, i, TriggerKey);
      ElementsMember(Project(ts[..i], TriggerKey), TriggerKey(trigger));
      var checks := VerifyTrigger(trigger, collectionNames);
      var repeat: seq<ValidationError> := [];
      if TriggerKey(trigger) in names {
        repeat := [DuplicateTrigger(trigger)];
      } else {
        names := names + {TriggerKey(trigger)};
      }
      errors := errors + checks + repeat;
      i := i + 1;
    }
    assert ts[..i] == ts;
  }

  /** `verifySchema`. */
  method VerifySchema(s: Schema) returns (errors: seq<ValidationError>)
    ensures errors == SchemaErrors(s)
  {
    var collectionErrors := VerifyCollections(s.collections);
    var functionErrors := VerifyFunctions(s.functions);
    var triggerErrors := VerifyTriggers(s.triggers, s.collections);
    errors := collectionErrors + functionErrors + triggerErrors;
  }

  // ---------------------------------------------------------------------------
  // Which messages appear

  /** Every index column that is neither reserved nor a field is reported, once, naming
      the index, the column and the collection; nothing else is. */
  lemma IndexColumnErrorsMembers(c: CollectionDefinition, indexName: string, indexDef: IndexDefinition,
                                 e: ValidationError)
    ensures e in IndexColumnErrors(c, indexName, indexDef)
      <==> exists col :: col in indexDef && !IndexColumnAccepted(c, col.0) && e == InvalidIndex(indexName, col.0, c.className)
  {
    FlatMapMembers(indexDef, (col: (string, int)) => IndexColumnStep(c, indexName, col.0), e);
  }

  lemma IndexColumnErrorsCount(c: CollectionDefinition, indexName: string, indexDef: IndexDefinition)
    ensures |IndexColumnErrors(c, indexName, indexDef)| == Count(indexDef, (col: (string, int)) => !IndexColumnAccepted(c, col.0))
  {
    FlatMapCount(indexDef, (col: (string, int)) => IndexColumnStep(c, indexName, col.0),
                 (col: (string, int)) => !IndexColumnAccepted(c, col.0));
  }

  /** One message per role whose value is not `true`. */
  lemma RoleErrorsCount(c: CollectionDefinition, permName: string, perm: RolePermissions)
    ensures |RoleErrors(c, permName, perm)| == Count(perm, (role: (string, bool)) => !role.1)
  {
    FlatMapCount(perm, v => RoleStep(c, permName, v), (role: (string, bool)) => !role.1);
  }

  /** The keys of an object never repeat, so the two uniqueness checks never fire. */
  lemma UniquenessChecksSilent(c: CollectionDefinition)
    ensures IndexUniquenessErrors(c) == [] && ColumnUniquenessErrors(c) == []
  {
    KeysDistinct(OrEmpty(c.indexes));
    KeysDistinct(c.fields);
    RepeatErrorsCount(Keys(OrEmpty(c.indexes)), k => DuplicateIndex(k, c.className));
    RepeatErrorsCount(Keys(c.fields), k => DuplicateColumn(k, c.className));
  }

  /** Everything the checks of one collection report is a problem report. */
  lemma CollectionChecksInvalid(c: CollectionDefinition)
    ensures forall e | e in CollectionChecks(c) :: Invalid(e)
  {
    UniquenessChecksSilent(c);
    assert CollectionChecks(c) == IndexErrors(c) + PermissionErrors(c);
    IndexErrorsInvalid(c);
    PermissionErrorsInvalid(c);
  }

  lemma IndexErrorsInvalid(c: CollectionDefinition)
    ensures forall e | e in IndexErrors(c) :: Invalid(e)
  {
    forall e | e in IndexErrors(c) ensures Invalid(e) {
      FlatMapMembers(OrEmpty(c.indexes), (e: (string, IndexDefinition)) => IndexColumnErrors(c, e.0, e.1), e);
      var entry :| entry in OrEmpty(c.indexes) && e in IndexColumnErrors(c, entry.0, entry.1);
      IndexColumnErrorsMembers(c, entry.0, entry.1, e);
      var col :| col in entry.1 && e == InvalidIndex(entry.0, col.0, c.className);
      InvalidMessages(entry.0, col.0, c.className, "", TriggerDefinition("", "", ""), FunctionDefinition("", ""));
    }
  }

  lemma PermissionErrorsInvalid(c: CollectionDefinition)
    ensures forall e | e in PermissionErrors(c) :: Invalid(e)
  {
    forall e | e in PermissionErrors(c) ensures Invalid(e) {
      FlatMapMembers(OrEmpty(c.classLevelPermissions), (e: (string, RolePermissions)) => RoleErrors(c, e.0, e.1), e);
      var entry :| entry in OrEmpty(c.classLevelPermissions) && e in RoleErrors(c, entry.0, entry.1);
      FlatMapMembers(entry.1, v => RoleStep(c, entry.0, v), e);
      var role :| role in entry.1 && e in RoleStep(c, entry.0, role);
      assert e == InvalidPermission(entry.0, c.className);
      InvalidMessages("", "", c.className, entry.0, TriggerDefinition("", "", ""), FunctionDefinition("", ""));
    }
  }

  /** The three trigger problems are reported independently: each message appears
      exactly when its own condition holds. */
  lemma TriggerProblems(t: TriggerDefinition, collections: seq<string>)
    ensures InvalidTriggerName(t) in VerifyTrigger(t, collections) <==> t.triggerName !in TriggerTypes
    ensures InvalidTriggerClass(t) in VerifyTrigger(t, collections) <==> t.className !in collections
    ensures InvalidTrigger(t) in VerifyTrigger(t, collections) <==> (t.triggerName == "" || t.className == "" || t.url == "")
  {
    TriggerMessagesDistinct(t, t);
  }

  // ---------------------------------------------------------------------------
  // Which schemas are accepted

  /** Every column of every index is reserved or a field. */
  predicate IndexesAccepted(c: CollectionDefinition) {
    forall e, col | e in OrEmpty(c.indexes) && col in e.1 :: IndexColumnAccepted(c, col.0)
  }

  /** Every role value of every permission is `true`. */
  predicate PermissionsAccepted(c: CollectionDefinition) {
    forall e, role | e in OrEmpty(c.classLevelPermissions) && role in e.1 :: role.1
  }

  lemma CollectionChecksEmpty(c: CollectionDefinition)
    ensures CollectionChecks(c) == [] <==> IndexesAccepted(c) && PermissionsAccepted(c)
  {
    UniquenessChecksSilent(c);
    FlatMapEmpty(OrEmpty(c.indexes), (e: (string, IndexDefinition)) => IndexColumnErrors(c, e.0, e.1));
    forall e | e in OrEmpty(c.indexes)
      ensures IndexColumnErrors(c, e.0, e.1) == [] <==> forall col | col in e.1 :: IndexColumnAccepted(c, col.0)
    {
      FlatMapEmpty(e.1, (col: (string, int)) => IndexColumnStep(c, e.0, col.0));
    }
    FlatMapEmpty(OrEmpty(c.classLevelPermissions), (e: (string, RolePermissions)) => RoleErrors(c, e.0, e.1));
    forall e | e in OrEmpty(c.classLevelPermissions)
      ensures RoleErrors(c, e.0, e.1) == [] <==> forall role | role in e.1 :: role.1
    {
      FlatMapEmpty(e.1, v => RoleStep(c, e.0, v));
    }
  }

  /** The collection loop reports nothing exactly when class names are unique and every
      collection passes its checks. */
  lemma CollectionErrorsEmpty(cs: seq<CollectionDefinition>)
    ensures CollectionErrors(cs) == []
      <==> UniqueClassNames(cs) && forall c | c in cs :: IndexesAccepted(c) && PermissionsAccepted(c)
  {
    WalkEmpty(cs, ClassNameOf, CollectionChecks, DuplicateClass);
    UniqueNamesDistinct(cs);
    forall c | c in cs ensures CollectionChecks(c) == [] <==> IndexesAccepted(c) && PermissionsAccepted(c) {
      CollectionChecksEmpty(c);
    }
  }

  /** Distinct remembered names are unique class names. */
  lemma UniqueNamesDistinct(cs: seq<CollectionDefinition>)
    ensures Distinct(Project(cs, ClassNameOf)) <==> UniqueClassNames(cs)
  {
    var p := Project(cs, ClassNameOf);
    assert forall i | 0 <= i < |cs| :: p[i] == cs[i].className;
  }

  lemma FunctionErrorsEmpty(fs: seq<FunctionDefinition>)
    ensures FunctionErrors(fs) == []
      <==> Distinct(Project(fs, FunctionNameOf)) && forall f | f in fs :: FunctionAccepted(f)
  {
    WalkEmpty(fs, FunctionNameOf, FunctionChecks, DuplicateFunction);
  }

  lemma TriggerErrorsEmpty(ts: seq<TriggerDefinition>, collections: seq<string>)
    ensures TriggerErrors(ts, collections) == []
      <==> Distinct(Project(ts, TriggerKey)) && forall t | t in ts :: TriggerAccepted(t, collections)
  {
    WalkEmpty(ts, TriggerKey, t => VerifyTrigger(t, collections), DuplicateTrigger);
  }

  /** A schema the verifier accepts: unique, well-formed collections; unique functions
      with a name and a url; unique, well-formed triggers on declared classes. */
  predicate SchemaAccepted(s: Schema) {
    && UniqueClassNames(s.collections)
    && (forall c | c in s.collections :: IndexesAccepted(c) && PermissionsAccepted(c))
    && Distinct(Project(s.functions, FunctionNameOf))
    && (forall f | f in s.functions :: FunctionAccepted(f))
    && Distinct(Project(s.triggers, TriggerKey))
    && (forall t | t in s.triggers :: TriggerAccepted(t, ClassNames(s.collections)))
  }

  /** `verifySchema` returns no error exactly for the accepted schemas. */
  lemma SchemaErrorsEmpty(s: Schema)
    ensures SchemaErrors(s) == [] <==> SchemaAccepted(s)
  {
    CollectionErrorsEmpty(s.collections);
    FunctionErrorsEmpty(s.functions);
    TriggerErrorsEmpty(s.triggers, ClassNames(s.collections));
  }

  // ---------------------------------------------------------------------------
  // Repeats

  /** One repeat message per class name met again, and no other message reads as one. */
  lemma CollectionRepeatsCounted(cs: seq<CollectionDefinition>)
    ensures Count(CollectionErrors(cs), IsDuplicateClass) == Repeats(ClassNames(cs))
  {
    forall c, e | c in cs && e in CollectionChecks(c) ensures !IsDuplicateClass(e) {
      CollectionChecksInvalid(c);
      InvalidIsNoDuplicate(e);
    }
    forall c | c in cs ensures IsDuplicateClass(DuplicateClass(c)) {
      DuplicateMessages(c, FunctionDefinition("", ""), TriggerDefinition("", "", ""));
    }
    WalkRepeats(cs, ClassNameOf, CollectionChecks, DuplicateClass, IsDuplicateClass);
    ClassNamesProject(cs);
  }

  lemma FunctionRepeatsCounted(fs: seq<FunctionDefinition>)
    ensures Count(FunctionErrors(fs), IsDuplicateFunction) == Repeats(Project(fs, FunctionNameOf))
  {
    forall f, e | f in fs && e in FunctionChecks(f) ensures !IsDuplicateFunction(e) {
      InvalidMessages("", "", "", "", TriggerDefinition("", "", ""), f);
      InvalidIsNoDuplicate(e);
    }
    forall f | f in fs ensures IsDuplicateFunction(DuplicateFunction(f)) {
      DuplicateMessages(Collection("", [], None, None), f, TriggerDefinition("", "", ""));
    }
    WalkRepeats(fs, FunctionNameOf, FunctionChecks, DuplicateFunction, IsDuplicateFunction);
  }

  lemma TriggerRepeatsCounted(ts: seq<TriggerDefinition>, collections: seq<string>)
    ensures Count(TriggerErrors(ts, collections), IsDuplicateTrigger) == Repeats(Project(ts, TriggerKey))
  {
    forall t, e | t in ts && e in VerifyTrigger(t, collections) ensures !IsDuplicateTrigger(e) {
      InvalidIsNoDuplicate(e);
    }
    forall t | t in ts ensures IsDuplicateTrigger(DuplicateTrigger(t)) {
      DuplicateMessages(Collection("", [], None, None), FunctionDefinition("", ""), t);
    }
    WalkRepeats(ts, TriggerKey, t => VerifyTrigger(t, collections), DuplicateTrigger, IsDuplicateTrigger);
  }

  /** A collection whose class name occurs earlier in the schema is reported. */
  lemma CollectionRepeatReported(cs: seq<CollectionDefinition>, i: int, j: int)
    requires 0 <= i < j < |cs| && cs[i].className == cs[j].className
    ensures DuplicateClass(cs[j]) in CollectionErrors(cs)
  {
    WalkReportsRepeat(cs, ClassNameOf, CollectionChecks, DuplicateClass, i, j);
  }
}

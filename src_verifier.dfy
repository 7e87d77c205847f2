/** The older snapshot's schema verifier. It has the same shape as the newer one (loops
    that push every problem found and remember the names seen), but checks less: index
    columns must be fields by their exact name, permissions, functions and the fields of
    triggers are not checked, and triggers are not matched against the collections. */
module SrcVerifier {
  import opened JsValues
  import opened SchemaTypes
  import opened Duplicates
  import opened SrcValidationError

  // ---------------------------------------------------------------------------
  // Index columns

  /** An index column the verifier accepts: `find` over the field names yields the
      matching name itself, so only a non-empty field name counts as found. */
  predicate IndexColumnAccepted(c: CollectionDefinition, indexCol: string) {
    indexCol in KeySet(c.fields) && indexCol != ""
  }

  function IndexColumnStep(c: CollectionDefinition, indexName: string, indexCol: string): seq<ValidationError> {
    if indexCol !in KeySet(c.fields) || indexCol == "" then [InvalidIndex(indexName, indexCol)] else []
  }

  function IndexColumnErrors(c: CollectionDefinition, indexName: string, indexDef: seq<(string, int)>): seq<ValidationError> {
    FlatMap(indexDef, (col: (string, int)) => IndexColumnStep(c, indexName, col.0))
  }

  /** `verifyCollectionIndexes`: a missing index map is read as `{}`. */
  function IndexErrors(c: CollectionDefinition): seq<ValidationError> {
    FlatMap(OrEmpty(c.indexes), (e: (string, IndexDefinition)) => IndexColumnErrors(c, e.0, e.1))
  }

  // ---------------------------------------------------------------------------
  // Uniqueness of index and field names

  function IndexUniquenessErrors(c: CollectionDefinition): seq<ValidationError> {
    RepeatErrors(Keys(OrEmpty(c.indexes)), k => DuplicateIndex(k, c.className))
  }

  function ColumnUniquenessErrors(c: CollectionDefinition): seq<ValidationError> {
    RepeatErrors(Keys(c.fields), k => DuplicateColumn(k, c.className))
  }

  /** The keys of an object are distinct. */
  lemma KeysDistinct<V>(o: Obj<V>)
    ensures Distinct(Keys(o))
  {
  }

  // ---------------------------------------------------------------------------
  // Collections

  /** The three checks made on each collection, in order. */
  function CollectionChecks(c: CollectionDefinition): seq<ValidationError> {
    IndexErrors(c) + IndexUniquenessErrors(c) + ColumnUniquenessErrors(c)
  }

  function ClassNameOf(c: CollectionDefinition): string { c.className }

  /** `verifyCollections`: the checks of each collection, then a repeat message when its
      class name was met before. */
  function CollectionErrors(cs: seq<CollectionDefinition>): seq<ValidationError> {
    Walk(cs, ClassNameOf, CollectionChecks, DuplicateClass)
  }

  /** The class names the loop remembers are those of the schema. */
  lemma ClassNamesProject(cs: seq<CollectionDefinition>)
    ensures Project(cs, ClassNameOf) == ClassNames(cs)
  {
  }

  // ---------------------------------------------------------------------------
  // Functions

  function FunctionNameOf(f: FunctionDefinition): string { f.functionName }

  /** `verifyFunctions` checks nothing about a function besides its name repeating. */
  function FunctionChecks(f: FunctionDefinition): seq<ValidationError> {
    []
  }

  /** `verifyFunctions`. */
  function FunctionErrors(fs: seq<FunctionDefinition>): seq<ValidationError> {
    Walk(fs, FunctionNameOf, FunctionChecks, DuplicateFunction)
  }

  // ---------------------------------------------------------------------------
  // Triggers

  /** The key under which repeated triggers are detected. */
  function TriggerKey(t: TriggerDefinition): string {
    t.className + "." + t.triggerName
  }

  /** `verifyTrigger`: a trigger of an unknown kind is the only problem it knows. */
  function VerifyTrigger(t: TriggerDefinition): (r: Option<ValidationError>)
    ensures r.None? <==> t.triggerName in TriggerTypes
    ensures r.Some? ==> r.value == InvalidTrigger(t) && Truthy(r)
  {
    if t.triggerName in TriggerTypes then None
    else
      assert InvalidTrigger(t)[0] == 'I';
      Some(InvalidTrigger(t))
  }

  /** The message of `verifyTrigger` is pushed when it is truthy. */
  function TriggerChecks(t: TriggerDefinition): seq<ValidationError> {
    var nError := VerifyTrigger(t);
    if Truthy(nError) then [nError.value] else []
  }

  /** `verifyTriggers`. */
  function TriggerErrors(ts: seq<TriggerDefinition>): seq<ValidationError> {
    Walk(ts, TriggerKey, TriggerChecks, DuplicateTrigger)
  }

  // ---------------------------------------------------------------------------
  // The schema

  /** `verifySchema`: collection problems, then function problems, then trigger
      problems, each list computed in full. */
  function SchemaErrors(s: Schema): seq<ValidationError> {
    CollectionErrors(s.collections) + FunctionErrors(s.functions) + TriggerErrors(s.triggers)
  }

  // ---------------------------------------------------------------------------
  // The loops

  /** The inner loop of `verifyCollectionIndexes`, over the columns of one index. */
  method VerifyIndexColumns(c: CollectionDefinition, indexName: string, indexDef: IndexDefinition)
    returns (errors: seq<ValidationError>)
    ensures errors == IndexColumnErrors(c, indexName, indexDef)
  {
    errors := [];
    var j := 0;
    while j < |indexDef|
      invariant 0 <= j <= |indexDef|
      invariant errors == FlatMap(indexDef[..j], (col: (string, int)) => IndexColumnStep(c, indexName, col.0))
    {
      var indexCol := indexDef[j].0;
      if indexCol !in KeySet(c.fields) || indexCol == "" {
        errors := errors + [InvalidIndex(indexName, indexCol)];
      }
      FlatMapSnoc(indexDef, j, (col: (string, int)) => IndexColumnStep(c, indexName, col.0));
      j := j + 1;
    }
    assert indexDef[..j] == indexDef;
  }

  /** `verifyCollectionIndexes`: each index definition is looked up by its name. */
  method VerifyCollectionIndexes(c: CollectionDefinition) returns (errors: seq<ValidationError>)
    ensures errors == IndexErrors(c)
  {
    var indexes := OrEmpty(c.indexes);
    errors := [];
    var i := 0;
    while i < |indexes|
      invariant 0 <= i <= |indexes|
      invariant errors == FlatMap(indexes[..i], (e: (string, IndexDefinition)) => IndexColumnErrors(c, e.0, e.1))
    {
      var indexName := indexes[i].0;
      GetEntry(indexes, indexName, indexes[i].1);
      var indexDef := Get(indexes, indexName).value;
      var found := VerifyIndexColumns(c, indexName, indexDef);
      errors := errors + found;
      FlatMapSnoc(indexes, i, (e: (string, IndexDefinition)) => IndexColumnErrors(c, e.0, e.1));
      i := i + 1;
    }
    assert indexes[..i] == indexes;
  }

  /** `verifyIndexUniqueness`: it walks the keys of an object, which never repeat, so it
      never reports anything. */
  method VerifyIndexUniqueness(c: CollectionDefinition) returns (errors: seq<ValidationError>)
    ensures errors == IndexUniquenessErrors(c)
    ensures errors == []
  {
    var keys := Keys(OrEmpty(c.indexes));
    errors := [];
    var names: set<string> := {};
    var i := 0;
    while i < |keys|
      invariant 0 <= i <= |keys|
      invariant names == Elements(keys[..i])
      invariant errors == RepeatErrors(keys[..i], k => DuplicateIndex(k, c.className))
    {
      var index := keys[i];
      assert keys[..i + 1][..i] == keys[..i];
      ElementsMember(keys[..i], index);
      if index in names {
        errors := errors + [DuplicateIndex(index, c.className)];
      } else {
        names := names + {index};
      }
      i := i + 1;
    }
    assert keys[..i] == keys;
    KeysDistinct(OrEmpty(c.indexes));
    RepeatErrorsCount(keys, k => DuplicateIndex(k, c.className));
  }

  /** `verifyColumnUniqueness`: the same walk over the field names, equally silent. */
  method VerifyColumnUniqueness(c: CollectionDefinition) returns (errors: seq<ValidationError>)
    ensures errors == ColumnUniquenessErrors(c)
    ensures errors == []
  {
    var keys := Keys(c.fields);
    errors := [];
    var names: set<string> := {};
    var i := 0;
    while i < |keys|
      invariant 0 <= i <= |keys|
      invariant names == Elements(keys[..i])
      invariant errors == RepeatErrors(keys[..i], k => DuplicateColumn(k, c.className))
    {
      var field := keys[i];
      assert keys[..i + 1][..i] == keys[..i];
      ElementsMember(keys[..i], field);
      if field in names {
        errors := errors + [DuplicateColumn(field, c.className)];
      } else {
        names := names + {field};
      }
      i := i + 1;
    }
    assert keys[..i] == keys;
    KeysDistinct(c.fields);
    RepeatErrorsCount(keys, k => DuplicateColumn(k, c.className));
  }

  /** The three checks the collection loop makes on each collection, in order. */
  method VerifyCollection(coll: CollectionDefinition) returns (errors: seq<ValidationError>)
    ensures errors == CollectionChecks(coll)
  {
    var indexErrors := VerifyCollectionIndexes(coll);
    var indexUniqueness := VerifyIndexUniqueness(coll);
    var columnUniqueness := VerifyColumnUniqueness(coll);
    errors := indexErrors + indexUniqueness + columnUniqueness;
  }

  /** A stand-in for `CollectionChecks` that agrees with it wherever `CollectionChecks` is
      applied. */
  lemma ChecksView() returns (chk: CollectionDefinition -> seq<ValidationError>)
    ensures forall c {:trigger CollectionChecks(c)} :: chk(c) == CollectionChecks(c)
  {
    chk := CollectionChecks;
  }

  /** The callback `verifyCollections` runs on each collection: its checks, then a repeat
      message or the name remembered. It is stated for any `chk` that agrees with
      `CollectionChecks`. */
  method VisitCollection(coll: CollectionDefinition, names: set<string>, errors: seq<ValidationError>,
                         ghost done: seq<CollectionDefinition>,
                         ghost chk: CollectionDefinition -> seq<ValidationError>)
    returns (names': set<string>, errors': seq<ValidationError>)
    requires forall c {:trigger CollectionChecks(c)} :: chk(c) == CollectionChecks(c)
    requires names == Elements(Project(done, ClassNameOf))
    requires errors == Walk(done, ClassNameOf, chk, DuplicateClass)
    ensures names' == Elements(Project(done + [coll], ClassNameOf))
    ensures errors' == Walk(done + [coll], ClassNameOf, chk, DuplicateClass)
  {
    WalkAppend(done, coll, ClassNameOf, chk, DuplicateClass);
    ElementsMember(Project(done, ClassNameOf), coll.className);
    var checks := VerifyCollection(coll);
    errors' := errors + checks;
    names' := names;
    if coll.className in names {
      errors' := errors' + [DuplicateClass(coll)];
    } else {
      names' := names + {coll.className};
    }
  }

  /** `verifyCollections`. The loop is proved against `Walk` with a stand-in for
      `CollectionChecks`, so that the messages of the collections already visited are not
      unfolded at every pass. */
  method VerifyCollections(cs: seq<CollectionDefinition>) returns (errors: seq<ValidationError>)
    ensures errors == CollectionErrors(cs)
  {
    ghost var chk := ChecksView();
    errors := [];
    var names: set<string> := {};
    var i := 0;
    while i < |cs|
      invariant 0 <= i <= |cs|
      invariant names == Elements(Project(cs[..i], ClassNameOf))
      invariant errors == Walk(cs[..i], ClassNameOf, chk, DuplicateClass)
    {
      assert cs[..i + 1] == cs[..i] + [cs[i]];
      names, errors := VisitCollection(cs[i], names, errors, cs[..i], chk);
      i := i + 1;
    }
    assert cs[..i] == cs;
    WalkCongruence(cs, ClassNameOf, chk, CollectionChecks, DuplicateClass);
  }

  /** `verifyTriggers`. */
  method VerifyTriggers(ts: seq<TriggerDefinition>) returns (errors: seq<ValidationError>)
    ensures errors == TriggerErrors(ts)
  {
    errors := [];
    var names: set<string> := {};
    var i := 0;
    while i < |ts|
      invariant 0 <= i <= |ts|
      invariant names == Elements(Project(ts[..i], TriggerKey))
      invariant errors == TriggerErrors(ts[..i])
    {
      var trigger := ts[i];
      WalkSnoc(ts, i, TriggerKey, TriggerChecks, DuplicateTrigger);
      ProjectSnoc(ts, i, TriggerKey);
      ElementsMember(Project(ts[..i], TriggerKey), TriggerKey(trigger));
      var checks: seq<ValidationError> := [];
      var nError := VerifyTrigger(trigger);
      if Truthy(nError) {
        checks := [nError.value];
      }
      var repeat: seq<ValidationError> := [];
      if TriggerKey(trigger) in names {
        repeat := [DuplicateTrigger(trigger)];
      } else {
        names := names + {TriggerKey(trigger)};
      }
      errors := errors + checks + repeat;
      i := i + 1;
    }
    assert ts[..i] == ts;
  }

  /** `verifyFunctions`. */
  method VerifyFunctions(fs: seq<FunctionDefinition>) returns (errors: seq<ValidationError>)
    ensures errors == FunctionErrors(fs)
  {
    errors := [];
    var names: set<string> := {};
    var i := 0;
    while i < |fs|
      invariant 0 <= i <= |fs|
      invariant names == Elements(Project(fs[..i], FunctionNameOf))
      invariant errors == FunctionErrors(fs[..i])
    {
      var func := fs[i];
      WalkSnoc(fs, i, FunctionNameOf, FunctionChecks, DuplicateFunction);
      ProjectSnoc(fs, i, FunctionNameOf);
      ElementsMember(Project(fs[..i], FunctionNameOf), func.functionName);
      if func.functionName in names {
        errors := errors + [DuplicateFunction(func)];
      } else {
        names := names + {func.functionName};
      }
      i := i + 1;
    }
    assert fs[..i] == fs;
  }

  /** `verifySchema`. */
  method VerifySchema(s: Schema) returns (errors: seq<ValidationError>)
    ensures errors == SchemaErrors(s)
  {
    var collectionErrors := VerifyCollections(s.collections);
    var functionErrors := VerifyFunctions(s.functions);
    var triggerErrors := VerifyTriggers(s.triggers);
    errors := collectionErrors + functionErrors + triggerErrors;
  }

  // ---------------------------------------------------------------------------
  // Which messages appear

  /** Every index column that is not (exactly) a field name is reported, naming the
      index and the column; nothing else is. */
  lemma IndexColumnErrorsMembers(c: CollectionDefinition, indexName: string, indexDef: IndexDefinition,
                                 e: ValidationError)
    ensures e in IndexColumnErrors(c, indexName, indexDef)
      <==> exists col :: col in indexDef && !IndexColumnAccepted(c, col.0) && e == InvalidIndex(indexName, col.0)
  {
    FlatMapMembers(indexDef, (col: (string, int)) => IndexColumnStep(c, indexName, col.0), e);
  }

  lemma IndexColumnErrorsCount(c: CollectionDefinition, indexName: string, indexDef: IndexDefinition)
    ensures |IndexColumnErrors(c, indexName, indexDef)| == Count(indexDef, (col: (string, int)) => !IndexColumnAccepted(c, col.0))
  {
    FlatMapCount(indexDef, (col: (string, int)) => IndexColumnStep(c, indexName, col.0),
                 (col: (string, int)) => !IndexColumnAccepted(c, col.0));
  }

  /** A reserved or pointer column gets no exemption: an index on `_id` of a collection
      that does not declare `_id` is reported. */
  lemma NoReservedExemption(c: CollectionDefinition, indexName: string)
    requires "_id" !in KeySet(c.fields)
    ensures IndexColumnErrors(c, indexName, [("_id", 1)]) == [InvalidIndex(indexName, "_id")]
  {
    assert [("_id", 1)][..0] == [];
  }

  /** The keys of an object never repeat, so the two uniqueness checks never fire. */
  lemma UniquenessChecksSilent(c: CollectionDefinition)
    ensures IndexUniquenessErrors(c) == [] && ColumnUniquenessErrors(c) == []
  {
    KeysDistinct(OrEmpty(c.indexes));
    KeysDistinct(c.fields);
    RepeatErrorsCount(Keys(OrEmpty(c.indexes)), k => DuplicateIndex(k, c.className));
    RepeatErrorsCount(Keys(c.fields), k => DuplicateColumn(k, c.className));
  }

  /** Everything the checks of one collection report is an invalid index. */
  lemma CollectionChecksInvalid(c: CollectionDefinition)
    ensures forall e | e in CollectionChecks(c) :: Invalid(e)
  {
    UniquenessChecksSilent(c);
    forall e | e in IndexErrors(c) ensures Invalid(e) {
      FlatMapMembers(OrEmpty(c.indexes), (e: (string, IndexDefinition)) => IndexColumnErrors(c, e.0, e.1), e);
      var entry :| entry in OrEmpty(c.indexes) && e in IndexColumnErrors(c, entry.0, entry.1);
      IndexColumnErrorsMembers(c, entry.0, entry.1, e);
      var col :| col in entry.1 && e == InvalidIndex(entry.0, col.0);
      InvalidMessages(entry.0, col.0, TriggerDefinition("", "", ""));
    }
  }

  /** A trigger yields at most one problem, exactly when its kind is unknown. */
  lemma TriggerProblems(t: TriggerDefinition)
    ensures TriggerChecks(t) == (if t.triggerName in TriggerTypes then [] else [InvalidTrigger(t)])
    ensures forall e | e in TriggerChecks(t) :: Invalid(e)
  {
    InvalidMessages("", "", t);
  }

  // ---------------------------------------------------------------------------
  // Which schemas are accepted

  /** Every column of every index is a field. */
  predicate IndexesAccepted(c: CollectionDefinition) {
    forall e, col | e in OrEmpty(c.indexes) && col in e.1 :: IndexColumnAccepted(c, col.0)
  }

  lemma CollectionChecksEmpty(c: CollectionDefinition)
    ensures CollectionChecks(c) == [] <==> IndexesAccepted(c)
  {
    UniquenessChecksSilent(c);
    FlatMapEmpty(OrEmpty(c.indexes), (e: (string, IndexDefinition)) => IndexColumnErrors(c, e.0, e.1));
    forall e | e in OrEmpty(c.indexes)
      ensures IndexColumnErrors(c, e.0, e.1) == [] <==> forall col | col in e.1 :: IndexColumnAccepted(c, col.0)
    {
      FlatMapEmpty(e.1, (col: (string, int)) => IndexColumnStep(c, e.0, col.0));
    }
  }

  lemma CollectionErrorsEmpty(cs: seq<CollectionDefinition>)
    ensures CollectionErrors(cs) == [] <==> UniqueClassNames(cs) && forall c | c in cs :: IndexesAccepted(c)
  {
    WalkEmpty(cs, ClassNameOf, CollectionChecks, DuplicateClass);
    UniqueNamesDistinct(cs);
    forall c | c in cs ensures CollectionChecks(c) == [] <==> IndexesAccepted(c) {
      CollectionChecksEmpty(c);
    }
  }

  /** Distinct remembered names are unique class names. */
  lemma UniqueNamesDistinct(cs: seq<CollectionDefinition>)
    ensures Distinct(Project(cs, ClassNameOf)) <==> UniqueClassNames(cs)
  {
    var p := Project(cs, ClassNameOf);
    assert forall i | 0 <= i < |cs| :: p[i] == cs[i].className;
  }

  /** Only a repeated name makes the function loop report anything. */
  lemma FunctionErrorsEmpty(fs: seq<FunctionDefinition>)
    ensures FunctionErrors(fs) == [] <==> Distinct(Project(fs, FunctionNameOf))
  {
    WalkEmpty(fs, FunctionNameOf, FunctionChecks, DuplicateFunction);
  }

  lemma TriggerErrorsEmpty(ts: seq<TriggerDefinition>)
    ensures TriggerErrors(ts) == []
      <==> Distinct(Project(ts, TriggerKey)) && forall t | t in ts :: t.triggerName in TriggerTypes
  {
    WalkEmpty(ts, TriggerKey, TriggerChecks, DuplicateTrigger);
    forall t | t in ts ensures TriggerChecks(t) == [] <==> t.triggerName in TriggerTypes {
      TriggerProblems(t);
    }
  }

  /** A schema the verifier accepts. Permissions, urls and the classes of triggers do not
      enter into it. */
  predicate SchemaAccepted(s: Schema) {
    && UniqueClassNames(s.collections)
    && (forall c | c in s.collections :: IndexesAccepted(c))
    && Distinct(Project(s.functions, FunctionNameOf))
    && Distinct(Project(s.triggers, TriggerKey))
    && (forall t | t in s.triggers :: t.triggerName in TriggerTypes)
  }

  /** `verifySchema` returns no error exactly for the accepted schemas. */
  lemma SchemaErrorsEmpty(s: Schema)
    ensures SchemaErrors(s) == [] <==> SchemaAccepted(s)
  {
    CollectionErrorsEmpty(s.collections);
    FunctionErrorsEmpty(s.functions);
    TriggerErrorsEmpty(s.triggers);
  }

  // ---------------------------------------------------------------------------
  // Repeats

  /** One repeat message per class name met again, and no other message reads as one. */
  lemma CollectionRepeatsCounted(cs: seq<CollectionDefinition>)
    ensures Count(CollectionErrors(cs), IsDuplicateClass) == Repeats(ClassNames(cs))
  {
    forall c, e | c in cs && e in CollectionChecks(c) ensures !IsDuplicateClass(e) {
      CollectionChecksInvalid(c);
      InvalidIsNoDuplicate(e);
    }
    forall c | c in cs ensures IsDuplicateClass(DuplicateClass(c)) {
      DuplicateMessages(c, FunctionDefinition("", ""), TriggerDefinition("", "", ""));
    }
    WalkRepeats(cs, ClassNameOf, CollectionChecks, DuplicateClass, IsDuplicateClass);
    ClassNamesProject(cs);
  }

  /** The function loop reports one repeat message per repeated name and nothing else. */
  lemma FunctionRepeatsCounted(fs: seq<FunctionDefinition>)
    ensures |FunctionErrors(fs)| == Repeats(Project(fs, FunctionNameOf))
    ensures forall e | e in FunctionErrors(fs) :: IsDuplicateFunction(e)
  {
    forall f | f in fs ensures IsDuplicateFunction(DuplicateFunction(f)) {
      DuplicateMessages(Collection("", [], None, None), f, TriggerDefinition("", "", ""));
    }
    forall e | e in FunctionErrors(fs) ensures IsDuplicateFunction(e) {
      WalkMessages(fs, FunctionNameOf, FunctionChecks, DuplicateFunction, e);
    }
    WalkRepeats(fs, FunctionNameOf, FunctionChecks, DuplicateFunction, IsDuplicateFunction);
    CountAll(FunctionErrors(fs), IsDuplicateFunction);
  }

  lemma TriggerRepeatsCounted(ts: seq<TriggerDefinition>)
    ensures Count(TriggerErrors(ts), IsDuplicateTrigger) == Repeats(Project(ts, TriggerKey))
  {
    forall t, e | t in ts && e in TriggerChecks(t) ensures !IsDuplicateTrigger(e) {
      TriggerProblems(t);
      InvalidIsNoDuplicate(e);
    }
    forall t | t in ts ensures IsDuplicateTrigger(DuplicateTrigger(t)) {
      DuplicateMessages(Collection("", [], None, None), FunctionDefinition("", ""), t);
    }
    WalkRepeats(ts, TriggerKey, TriggerChecks, DuplicateTrigger, IsDuplicateTrigger);
  }

  /** A collection whose class name occurs earlier in the schema is reported. */
  lemma CollectionRepeatReported(cs: seq<CollectionDefinition>, i: int, j: int)
    requires 0 <= i < j < |cs| && cs[i].className == cs[j].className
    ensures DuplicateClass(cs[j]) in CollectionErrors(cs)
  {
    WalkReportsRepeat(cs, ClassNameOf, CollectionChecks, DuplicateClass, i, j);
  }
}

/** The schema a Parse server holds: collections with their columns, indexes and
    class-level permissions, and the cloud-code hooks (functions and triggers). */
module SchemaTypes {
  import opened JsValues

  /** A column: its Parse type and, for pointers and relations, the class pointed to. */
  datatype ColumnDefinition = ColumnDefinition(typeName: string, targetClass: Option<string>)

  /** An index: column name to direction. */
  type IndexDefinition = Obj<int>

  /** Role (or `*`) to granted flag. */
  type RolePermissions = Obj<bool>

  /** Operation (`find`, `get`, `create`, ...) to the roles allowed to perform it. */
  type CollectionPermissions = Obj<RolePermissions>

  /** A collection whose indexes are described by values of type `I`. Both the
      permissions and the index map may be missing from a definition. */
  datatype Collection<I> = Collection(
    className: string,
    fields: Obj<ColumnDefinition>,
    classLevelPermissions: Option<CollectionPermissions>,
    indexes: Option<Obj<I>>)

  type CollectionDefinition = Collection<IndexDefinition>

  datatype FunctionDefinition = FunctionDefinition(functionName: string, url: string)

  datatype TriggerDefinition = TriggerDefinition(className: string, triggerName: string, url: string)

  datatype Schema = Schema(
    collections: seq<CollectionDefinition>,
    functions: seq<FunctionDefinition>,
    triggers: seq<TriggerDefinition>)

  /** The trigger kinds the server accepts, in declaration order. */
  const TriggerTypes: seq<string> := ["beforeSave", "afterSave", "beforeDelete", "afterDelete"]

  /** `o || {}` for an optional object. */
  function OrEmpty<V>(o: Option<Obj<V>>): (r: Obj<V>)
    ensures o.Some? ==> r == o.value
    ensures o.None? ==> r == []
  {
    if o.Some? then o.value else []
  }

  // ---------------------------------------------------------------------------
  // `new Map(entries)`

  /** Entry `i` is the last one with its key. */
  predicate LastWithKey<T>(entries: seq<(string, T)>, i: int)
    requires 0 <= i < |entries|
  {
    forall j | i < j < |entries| :: entries[j].0 != entries[i].0
  }

  /** `new Map(entries)`: every key of the entries is in the map, and a later entry for
      a key replaces an earlier one. */
  function NewMap<T>(entries: seq<(string, T)>): (m: map<string, T>)
    ensures m.Keys == KeySet(entries)
  {
    if entries == [] then map[]
    else
      var init := entries[..|entries| - 1];
      var last := entries[|entries| - 1];
      KeySetAppend(init, [last]);
      assert init + [last] == entries;
      NewMap(init)[last.0 := last.1]
  }

  /** The map holds, for each key, the value of the last entry with that key. */
  lemma {:induction false} NewMapLastWins<T>(entries: seq<(string, T)>, i: int)
    requires 0 <= i < |entries| && LastWithKey(entries, i)
    ensures entries[i].0 in NewMap(entries) && NewMap(entries)[entries[i].0] == entries[i].1
  {
    KeySetHas(entries, i);
    var n := |entries| - 1;
    if i < n {
      var init := entries[..n];
      assert LastWithKey(init, i);
      NewMapLastWins(init, i);
      assert entries[n].0 != entries[i].0;
    }
  }

  /** A value of the map is the value of some entry with that key. */
  lemma {:induction false} NewMapValue<T>(entries: seq<(string, T)>, k: string)
    requires k in NewMap(entries)
    ensures (k, NewMap(entries)[k]) in entries
  {
    var n := |entries| - 1;
    if entries[n].0 != k {
      NewMapValue(entries[..n], k);
      assert entries[..n] <= entries;
    }
  }

  /** When the keys are distinct, each entry is found in the map. */
  lemma NewMapDistinct<T>(entries: seq<(string, T)>, k: string, v: T)
    requires DistinctKeys(entries)
    requires (k, v) in entries
    ensures k in NewMap(entries) && NewMap(entries)[k] == v
  {
    var i :| 0 <= i < |entries| && entries[i] == (k, v);
    NewMapLastWins(entries, i);
  }

  // ---------------------------------------------------------------------------
  // Identities of collections

  /** `collections.map(c => [c.className, c])`. */
  function ByClassName(cs: seq<CollectionDefinition>): (r: seq<(string, CollectionDefinition)>)
    ensures |r| == |cs|
    ensures forall i | 0 <= i < |cs| :: r[i] == (cs[i].className, cs[i])
  {
    if cs == [] then [] else [(cs[0].className, cs[0])] + ByClassName(cs[1..])
  }

  /** The class names of the collections, in order. */
  function ClassNames(cs: seq<CollectionDefinition>): (r: seq<string>)
    ensures |r| == |cs|
    ensures forall i | 0 <= i < |cs| :: r[i] == cs[i].className
  {
    if cs == [] then [] else [cs[0].className] + ClassNames(cs[1..])
  }

  lemma ClassNamesMember(cs: seq<CollectionDefinition>, name: string)
    ensures name in ClassNames(cs) <==> exists c :: c in cs && c.className == name
  {
    if name in ClassNames(cs) {
      var i :| 0 <= i < |cs| && ClassNames(cs)[i] == name;
      assert cs[i] in cs;
    }
    if c :| c in cs && c.className == name {
      var i :| 0 <= i < |cs| && cs[i] == c;
      assert ClassNames(cs)[i] == name;
    }
  }

  /** The class names are pairwise distinct. */
  predicate UniqueClassNames(cs: seq<CollectionDefinition>) {
    forall i, j | 0 <= i < j < |cs| :: cs[i].className != cs[j].className
  }

  /** A class is in the map built from the collections exactly when a collection has
      that name; the collection found has that name and is one of the collections (the
      only one, when names are unique). */
  lemma ByClassNameMap(cs: seq<CollectionDefinition>, name: string)
    ensures name in NewMap(ByClassName(cs)) <==> name in ClassNames(cs)
    ensures name in NewMap(ByClassName(cs)) ==>
      NewMap(ByClassName(cs))[name] in cs && NewMap(ByClassName(cs))[name].className == name
  {
    var e := ByClassName(cs);
    KeySetMembers(e, name);
    if name in NewMap(e) {
      NewMapValue(e, name);
      var i :| 0 <= i < |e| && e[i] == (name, NewMap(e)[name]);
      assert ClassNames(cs)[i] == name;
    }
    if name in ClassNames(cs) {
      var i :| 0 <= i < |cs| && ClassNames(cs)[i] == name;
      assert e[i].0 == name;
    }
  }

  /** With unique names, the map finds each collection under its own name. */
  lemma ClassMapUnique(cs: seq<CollectionDefinition>, c: CollectionDefinition)
    requires UniqueClassNames(cs)
    requires c in cs
    ensures c.className in NewMap(ByClassName(cs)) && NewMap(ByClassName(cs))[c.className] == c
  {
    var e := ByClassName(cs);
    var i :| 0 <= i < |cs| && cs[i] == c;
    assert e[i] == (c.className, c);
    NewMapDistinct(e, c.className, c);
  }
}

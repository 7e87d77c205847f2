/** The JSON form of schema values, as it appears in request bodies and in serialised
    commands, and the way back from it. */
module SchemaJson {
  import opened JsValues
  import opened JsonValues
  import opened SchemaTypes

  // ---------------------------------------------------------------------------
  // Objects

  /** The members of an object whose values are encoded by `enc`. */
  function Entries<V>(o: seq<(string, V)>, enc: V -> Json): (ms: seq<(string, Json)>)
    ensures |ms| == |o|
    ensures forall i | 0 <= i < |o| :: ms[i] == (o[i].0, enc(o[i].1))
  {
    if o == [] then [] else [(o[0].0, enc(o[0].1))] + Entries(o[1..], enc)
  }

  /** Decoding every member value with `dec`, failing when one fails. */
  function FromEntries<V>(ms: seq<(string, Json)>, dec: Json -> Option<V>): (r: Option<seq<(string, V)>>)
    ensures r.Some? ==> Keys(r.value) == Keys(ms)
  {
    if ms == [] then Some([])
    else
      match (dec(ms[0].1), FromEntries(ms[1..], dec))
      case (Some(v), Some(rest)) => Some([(ms[0].0, v)] + rest)
      case _ => None
  }

  function ObjToJson<V>(o: Obj<V>, enc: V -> Json): Json {
    JObj(Entries(o, enc))
  }

  function ObjFromJson<V>(j: Json, dec: Json -> Option<V>): Option<Obj<V>> {
    match j
    case JObj(ms) =>
      (match FromEntries(ms, dec)
       case Some(o) => if DistinctKeys(o) then Some(o) else None
       case None => None)
    case _ => None
  }

  /** Decoding the encoded members gives them back, when every value decodes back. */
  lemma {:induction false} EntriesRoundTrip<V>(o: seq<(string, V)>, enc: V -> Json, dec: Json -> Option<V>)
    requires forall e | e in o :: dec(enc(e.1)) == Some(e.1)
    ensures FromEntries(Entries(o, enc), dec) == Some(o)
  {
    if o != [] {
      assert o[0] in o;
      forall e | e in o[1..] ensures dec(enc(e.1)) == Some(e.1) {
        assert e in o;
      }
      EntriesRoundTrip(o[1..], enc, dec);
      var ms := Entries(o, enc);
      assert ms[1..] == Entries(o[1..], enc);
      assert dec(ms[0].1) == Some(o[0].1);
      assert FromEntries(ms, dec) == Some([(ms[0].0, o[0].1)] + o[1..]);
      assert o == [o[0]] + o[1..];
    }
  }

  lemma ObjRoundTrip<V>(o: Obj<V>, enc: V -> Json, dec: Json -> Option<V>)
    requires forall e | e in o :: dec(enc(e.1)) == Some(e.1)
    ensures ObjFromJson(ObjToJson(o, enc), dec) == Some(o)
  {
    EntriesRoundTrip(o, enc, dec);
  }

  // ---------------------------------------------------------------------------
  // Scalars

  function BoolToJson(b: bool): Json { JBool(b) }
  function BoolFromJson(j: Json): Option<bool> { if j.JBool? then Some(j.b) else None }
  function IntToJson(n: int): Json { JNum(n) }
  function IntFromJson(j: Json): Option<int> { if j.JNum? then Some(j.n) else None }
  function StrFromJson(j: Option<Json>): Option<string> {
    if j.Some? && j.value.JStr? then Some(j.value.s) else None
  }

  // ---------------------------------------------------------------------------
  // Columns, indexes, permissions

  /** `{ type, targetClass }`, without `targetClass` when there is none. */
  function ColumnToJson(c: ColumnDefinition): Json {
    JObj([("type", JStr(c.typeName))]
         + Optional("targetClass", if c.targetClass.Some? then Some(JStr(c.targetClass.value)) else None))
  }

  function ColumnFromJson(j: Json): Option<ColumnDefinition> {
    match (StrFromJson(Member(j, "type")), Member(j, "targetClass"))
    case (Some(t), None) => Some(ColumnDefinition(t, None))
    case (Some(t), Some(JStr(tc))) => Some(ColumnDefinition(t, Some(tc)))
    case _ => None
  }

  function FieldsToJson(fields: Obj<ColumnDefinition>): Json { ObjToJson(fields, ColumnToJson) }
  function FieldsFromJson(j: Json): Option<Obj<ColumnDefinition>> { ObjFromJson(j, ColumnFromJson) }

  function IndexToJson(i: IndexDefinition): Json { ObjToJson(i, IntToJson) }
  function IndexFromJson(j: Json): Option<IndexDefinition> { ObjFromJson(j, IntFromJson) }

  function IndexesToJson(ix: Obj<IndexDefinition>): Json { ObjToJson(ix, IndexToJson) }
  function IndexesFromJson(j: Json): Option<Obj<IndexDefinition>> { ObjFromJson(j, IndexFromJson) }

  function RolesToJson(r: RolePermissions): Json { ObjToJson(r, BoolToJson) }
  function RolesFromJson(j: Json): Option<RolePermissions> { ObjFromJson(j, BoolFromJson) }

  function PermissionsToJson(p: CollectionPermissions): Json { ObjToJson(p, RolesToJson) }
  function PermissionsFromJson(j: Json): Option<CollectionPermissions> { ObjFromJson(j, RolesFromJson) }

  /** An optional value as an optional property. */
  function OptionalPermissions(p: Option<CollectionPermissions>): Option<Json> {
    if p.Some? then Some(PermissionsToJson(p.value)) else None
  }

  function OptionalIndexes(ix: Option<Obj<IndexDefinition>>): Option<Json> {
    if ix.Some? then Some(IndexesToJson(ix.value)) else None
  }

  /** `JSON.stringify` of optional class-level permissions, as interpolated into a
      template string (`undefined` when there are none). */
  function PrettyPrintCollectionPermissions(p: Option<CollectionPermissions>): (r: string)
    ensures r == "undefined" <==> p.None?
    ensures p.Some? ==> |r| >= 2 && r[0] == '{' && r[|r| - 1] == '}'
  {
    if p.Some? then
      var s := Stringify(PermissionsToJson(p.value));
      assert s[0] == '{' != "undefined"[0];
      s
    else "undefined"
  }

  lemma ColumnRoundTrip(c: ColumnDefinition)
    ensures ColumnFromJson(ColumnToJson(c)) == Some(c)
  {
    var j := ColumnToJson(c);
    assert Member(j, "type") == Some(JStr(c.typeName));
    if c.targetClass.Some? {
      assert j.members[1..] == [("targetClass", JStr(c.targetClass.value))];
    }
  }

  lemma FieldsRoundTrip(fields: Obj<ColumnDefinition>)
    ensures FieldsFromJson(FieldsToJson(fields)) == Some(fields)
  {
    forall e | e in fields ensures ColumnFromJson(ColumnToJson(e.1)) == Some(e.1) {
      ColumnRoundTrip(e.1);
    }
    ObjRoundTrip(fields, ColumnToJson, ColumnFromJson);
  }

  lemma IndexRoundTrip(i: IndexDefinition)
    ensures IndexFromJson(IndexToJson(i)) == Some(i)
  {
    ObjRoundTrip(i, IntToJson, IntFromJson);
  }

  lemma IndexesRoundTrip(ix: Obj<IndexDefinition>)
    ensures IndexesFromJson(IndexesToJson(ix)) == Some(ix)
  {
    forall e | e in ix ensures IndexFromJson(IndexToJson(e.1)) == Some(e.1) {
      IndexRoundTrip(e.1);
    }
    ObjRoundTrip(ix, IndexToJson, IndexFromJson);
  }

  lemma RolesRoundTrip(r: RolePermissions)
    ensures RolesFromJson(RolesToJson(r)) == Some(r)
  {
    ObjRoundTrip(r, BoolToJson, BoolFromJson);
  }

  lemma PermissionsRoundTrip(p: CollectionPermissions)
    ensures PermissionsFromJson(PermissionsToJson(p)) == Some(p)
  {
    forall e | e in p ensures RolesFromJson(RolesToJson(e.1)) == Some(e.1) {
      RolesRoundTrip(e.1);
    }
    ObjRoundTrip(p, RolesToJson, RolesFromJson);
  }

  // ---------------------------------------------------------------------------
  // Collections and hooks

  /** `{ className, fields, classLevelPermissions, indexes }`; the last two are absent
      when the definition has none. */
  function CollectionToJson(c: CollectionDefinition): Json {
    JObj([("className", JStr(c.className)), ("fields", FieldsToJson(c.fields))]
         + Optional("classLevelPermissions", OptionalPermissions(c.classLevelPermissions))
         + Optional("indexes", OptionalIndexes(c.indexes)))
  }

  function CollectionFromJson(j: Json): Option<CollectionDefinition> {
    var className := StrFromJson(Member(j, "className"));
    var fields := if Member(j, "fields").Some? then FieldsFromJson(Member(j, "fields").value) else None;
    var clp := Member(j, "classLevelPermissions");
    var perms := if clp.Some? then PermissionsFromJson(clp.value) else None;
    var ix := Member(j, "indexes");
    var indexes := if ix.Some? then IndexesFromJson(ix.value) else None;
    if className.None? || fields.None? || (clp.Some? && perms.None?) || (ix.Some? && indexes.None?) then None
    else Some(Collection(className.value, fields.value,
                         if clp.Some? then perms else None,
                         if ix.Some? then indexes else None))
  }

  /** The four properties of an object laid out as an encoded collection is. */
  lemma CollectionShapeMembers(name: Json, fields: Json, perms: Option<Json>, indexes: Option<Json>)
    ensures var j := JObj([("className", name), ("fields", fields)]
                          + Optional("classLevelPermissions", perms) + Optional("indexes", indexes));
      && Member(j, "className") == Some(name) && Member(j, "fields") == Some(fields)
      && Member(j, "classLevelPermissions") == perms && Member(j, "indexes") == indexes
  {
    var head := [("className", name), ("fields", fields)];
    var p := Optional("classLevelPermissions", perms);
    var ix := Optional("indexes", indexes);
    var j := head + (p + ix);
    assert head + p + ix == j;
    assert j[1..] == [("fields", fields)] + (p + ix);
    assert j[1..][1..] == p + ix;
    assert "fields" != "className";
    assert Get(j, "fields") == Get(j[1..], "fields") == Some(fields);
    assert "classLevelPermissions"[5] != "className"[5] && "classLevelPermissions"[0] != "fields"[0];
    assert Get(j, "classLevelPermissions") == Get(j[1..], "classLevelPermissions") == Get(p + ix, "classLevelPermissions");
    assert "indexes"[0] != "className"[0] && "indexes"[0] != "fields"[0];
    assert Get(j, "indexes") == Get(j[1..], "indexes") == Get(p + ix, "indexes");
    assert "indexes"[0] != "classLevelPermissions"[0];
    GetAppend(p, ix, "classLevelPermissions");
    GetAppend(p, ix, "indexes");
  }

  /** Each property of the encoded collection holds the encoding of its part. */
  lemma CollectionMembers(c: CollectionDefinition)
    ensures Member(CollectionToJson(c), "className") == Some(JStr(c.className))
    ensures Member(CollectionToJson(c), "fields") == Some(FieldsToJson(c.fields))
    ensures Member(CollectionToJson(c), "classLevelPermissions") == OptionalPermissions(c.classLevelPermissions)
    ensures Member(CollectionToJson(c), "indexes") == OptionalIndexes(c.indexes)
  {
    CollectionShapeMembers(JStr(c.className), FieldsToJson(c.fields), OptionalPermissions(c.classLevelPermissions),
                           OptionalIndexes(c.indexes));
  }

  lemma CollectionRoundTrip(c: CollectionDefinition)
    ensures CollectionFromJson(CollectionToJson(c)) == Some(c)
  {
    var j := CollectionToJson(c);
    CollectionMembers(c);
    FieldsRoundTrip(c.fields);
    assert StrFromJson(Member(j, "className")) == Some(c.className);
    assert FieldsFromJson(Member(j, "fields").value) == Some(c.fields);
    var clp := Member(j, "classLevelPermissions");
    assert clp.Some? == c.classLevelPermissions.Some?;
    if c.classLevelPermissions.Some? {
      PermissionsRoundTrip(c.classLevelPermissions.value);
      assert PermissionsFromJson(clp.value) == c.classLevelPermissions;
    }
    var ix := Member(j, "indexes");
    assert ix.Some? == c.indexes.Some?;
    if c.indexes.Some? {
      IndexesRoundTrip(c.indexes.value);
      assert IndexesFromJson(ix.value) == c.indexes;
    }
  }

  function FunctionToJson(f: FunctionDefinition): Json {
    JObj([("functionName", JStr(f.functionName)), ("url", JStr(f.url))])
  }

  function FunctionFromJson(j: Json): Option<FunctionDefinition> {
    match (StrFromJson(Member(j, "functionName")), StrFromJson(Member(j, "url")))
    case (Some(n), Some(u)) => Some(FunctionDefinition(n, u))
    case _ => None
  }

  lemma FunctionRoundTrip(f: FunctionDefinition)
    ensures FunctionFromJson(FunctionToJson(f)) == Some(f)
  {
  }

  function TriggerToJson(t: TriggerDefinition): Json {
    JObj([("className", JStr(t.className)), ("triggerName", JStr(t.triggerName)), ("url", JStr(t.url))])
  }

  function TriggerFromJson(j: Json): Option<TriggerDefinition> {
    match (StrFromJson(Member(j, "className")), StrFromJson(Member(j, "triggerName")), StrFromJson(Member(j, "url")))
    case (Some(c), Some(n), Some(u)) => Some(TriggerDefinition(c, n, u))
    case _ => None
  }

  lemma TriggerRoundTrip(t: TriggerDefinition)
    ensures TriggerFromJson(TriggerToJson(t)) == Some(t)
  {
    var j := TriggerToJson(t);
    assert j.members[1..] == [("triggerName", JStr(t.triggerName)), ("url", JStr(t.url))];
    assert Get(j.members[1..], "url") == Some(JStr(t.url));
  }
}

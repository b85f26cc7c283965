/** The pass as `compile_node` runs it: at each object it first edits the named properties and then
    goes on into every value. */
module ConstraintPass {
  import opened JsonValues
  import opened ConstraintCompiler

  /** Every object in the document has distinct keys, as every loaded document has. */
  predicate Distinct(value: Json)
    decreases value
  {
    match value
    case Arr(items) => forall i :: 0 <= i < |items| ==> Distinct(items[i])
    case Obj(fields) => DistinctKeys(fields) && forall i :: 0 <= i < |fields| ==> Distinct(fields[i].value)
    case _ => true
  }

  /** How many objects a value is made of; no edit adds one. */
  function Objects(value: Json): nat
    decreases value
  {
    match value
    case Arr(items) => ObjectsOfItems(items)
    case Obj(fields) => 1 + ObjectsOfFields(fields)
    case _ => 0
  }

  function ObjectsOfItems(items: seq<Json>): nat
    decreases items
  {
    if items == [] then 0 else Objects(items[0]) + ObjectsOfItems(items[1..])
  }

  function ObjectsOfFields(fields: seq<Field>): nat
    decreases fields
  {
    if fields == [] then 0 else Objects(fields[0].value) + ObjectsOfFields(fields[1..])
  }

  lemma {:induction false} ObjectsInItem(items: seq<Json>, i: nat)
    requires i < |items|
    ensures Objects(items[i]) <= ObjectsOfItems(items)
    decreases |items|
  {
    hide Objects;
    if i > 0 {
      ObjectsInItem(items[1..], i - 1);
    }
  }

  lemma {:induction false} ObjectsInField(fields: seq<Field>, i: nat)
    requires i < |fields|
    ensures Objects(fields[i].value) <= ObjectsOfFields(fields)
    decreases |fields|
  {
    hide Objects;
    if i > 0 {
      ObjectsInField(fields[1..], i - 1);
    }
  }

  lemma {:induction false} ObjectsAfterPut(fields: seq<Field>, key: string, value: Json)
    requires Objects(value) == 0
    ensures ObjectsOfFields(Put(fields, key, value)) <= ObjectsOfFields(fields)
    decreases |fields|
  {
    hide Objects;
    if fields == [] {
      assert [Field(key, value)][1..] == [];
    } else if fields[0].key == key {
      assert ([Field(key, value)] + fields[1..])[1..] == fields[1..];
    } else {
      ObjectsAfterPut(fields[1..], key, value);
      assert ([fields[0]] + Put(fields[1..], key, value))[1..] == Put(fields[1..], key, value);
    }
  }

  lemma {:induction false} ObjectsAfterWithout(fields: seq<Field>, key: string)
    ensures ObjectsOfFields(Without(fields, key)) <= ObjectsOfFields(fields)
    decreases |fields|
  {
    hide Objects;
    if fields != [] {
      ObjectsAfterWithout(fields[1..], key);
      assert ([fields[0]] + Without(fields[1..], key))[1..] == Without(fields[1..], key);
    }
  }

  // The edits of one `properties`

  /** What the pass makes of one named property. */
  function EditedProperty(f: Field): Field {
    if !f.value.Obj? then f
    else if IsTimeField(f.key) then Field(f.key, Obj(EditTime(f.value.fields)))
    else if f.key == SURFACE then Field(f.key, Obj(EditSurface(f.value.fields)))
    else f
  }

  /** The properties with the edits of the names in `done` made. */
  function EditNamed(fields: seq<Field>, done: set<string>): seq<Field> {
    seq(|fields|, i requires 0 <= i < |fields| =>
      if fields[i].key in done then EditedProperty(fields[i]) else fields[i])
  }

  predicate BoundsReadable(properties: seq<Field>) {
    forall f :: f in properties ==> ReadableBound(f)
  }

  const TIME_FIELDS: seq<string> :=
    ["budget_wall_time_ms", "total_wall_time_ms", "cell_wall_time_ms", "remaining_wall_time_ms"]

  lemma {:induction false} PutInPlace(fields: seq<Field>, i: nat, value: Json)
    requires i < |fields| && forall j :: 0 <= j < i ==> fields[j].key != fields[i].key
    ensures Put(fields, fields[i].key, value) == fields[i := Field(fields[i].key, value)]
    decreases i
  {
    var f := Field(fields[i].key, value);
    if i == 0 {
      assert [f] + fields[1..] == fields[0 := f];
    } else {
      var rest := fields[1..];
      assert rest[i - 1] == fields[i];
      PutInPlace(rest, i - 1, value);
      assert [fields[0]] + rest[i - 1 := f] == fields[i := f];
    }
  }

  lemma EditNamedKeys(fields: seq<Field>, done: set<string>)
    requires DistinctKeys(fields)
    ensures |EditNamed(fields, done)| == |fields| && DistinctKeys(EditNamed(fields, done))
    ensures forall i :: 0 <= i < |fields| ==> EditNamed(fields, done)[i].key == fields[i].key
  {
    hide EditedProperty;
    forall i | 0 <= i < |fields| ensures EditNamed(fields, done)[i].key == fields[i].key {
      EditKeepsKey(fields[i]);
    }
  }

  lemma FoundAt(fields: seq<Field>, i: nat)
    requires DistinctKeys(fields) && i < |fields|
    ensures Get(fields, fields[i].key) == Some(fields[i].value)
    ensures forall j :: 0 <= j < |fields| && fields[j].key == fields[i].key ==> j == i
  {
    hide Get;
    assert fields[i] in fields;
    GetUnique(fields, fields[i]);
    forall j | 0 <= j < |fields| && j != i ensures fields[j].key != fields[i].key {
      if j < i {
        assert fields[j].key != fields[i].key;
      }
    }
  }

  /** One lookup and assignment edits one more name. */
  lemma EditOneMore(fields: seq<Field>, done: set<string>, name: string)
    requires DistinctKeys(fields) && name !in done
    ensures var now := EditNamed(fields, done);
      var edited := EditedProperty(Field(name, if Get(now, name).Some? then Get(now, name).value else Null));
      EditNamed(fields, done + {name}) == if Get(now, name).Some? then Put(now, name, edited.value) else now
  {
    hide EditedProperty, Get, Put, DistinctKeys;
    var now := EditNamed(fields, done);
    EditNamedKeys(fields, done);
    if i :| 0 <= i < |fields| && fields[i].key == name {
      FoundAt(now, i);
      PutInPlace(now, i, EditedProperty(fields[i]).value);
      EditKeepsKey(fields[i]);
      assert EditNamed(fields, done + {name}) == now[i := EditedProperty(fields[i])];
    } else {
      GetFinds(now, name);
      assert EditNamed(fields, done + {name}) == now;
    }
  }

  lemma EditKeepsKey(f: Field)
    ensures EditedProperty(f).key == f.key
  {
  }

  lemma TimeNames(name: string)
    ensures name in TIME_FIELDS <==> IsTimeField(name)
    ensures SURFACE !in TIME_FIELDS && !IsTimeField(SURFACE)
  {
    assert TIME_FIELDS[0] == "budget_wall_time_ms" && TIME_FIELDS[1] == "total_wall_time_ms";
    assert TIME_FIELDS[2] == "cell_wall_time_ms" && TIME_FIELDS[3] == "remaining_wall_time_ms";
    forall n | IsTimeField(n) ensures n != SURFACE {
    }
  }

  /** A property not edited yet is found as it was. */
  lemma NextProperty(fields: seq<Field>, done: set<string>, name: string)
    requires DistinctKeys(fields) && name !in done
    ensures var found := Get(EditNamed(fields, done), name);
      && (found.Some? ==> Field(name, found.value) in fields)
      && forall f :: f in fields && f.key == name ==> found == Some(f.value)
  {
    hide EditedProperty, Get, DistinctKeys;
    var now := EditNamed(fields, done);
    EditNamedKeys(fields, done);
    if i :| 0 <= i < |fields| && fields[i].key == name {
      FoundAt(now, i);
      assert now[i] == fields[i];
    } else {
      GetFinds(now, name);
    }
  }

  /** The two parts of `compile_node` that assign: the time bounds, then the surface version. */
  method EditProperties(properties: seq<Field>) returns (r: Option<seq<Field>>)
    requires DistinctKeys(properties)
    ensures r == if BoundsReadable(properties) then Some(AllEdited(properties)) else None
  {
    var edited := properties;
    ghost var done: set<string> := {};
    assert edited == EditNamed(properties, {});
    var n := 0;
    while n < |TIME_FIELDS|
      invariant 0 <= n <= |TIME_FIELDS| && edited == EditNamed(properties, done)
      invariant done == set i | 0 <= i < n :: TIME_FIELDS[i]
      invariant forall f :: f in properties && f.key in done ==> ReadableBound(f)
    {
      var name := TIME_FIELDS[n];
      TimeNames(name);
      EditOneMore(properties, done, name);
      NextProperty(properties, done, name);
      var field := Get(edited, name);
      if field.Some? && field.value.Obj? {
        if !ReadableBound(Field(name, field.value)) {
          return None;
        }
        edited := Put(edited, name, Obj(EditTime(field.value.fields)));
      } else if field.Some? {
        PutSame(edited, name);
      }
      done := done + {name};
      n := n + 1;
    }
    TimeNames(SURFACE);
    assert SURFACE !in done;
    EditOneMore(properties, done, SURFACE);
    var surface := Get(edited, SURFACE);
    if surface.Some? && surface.value.Obj? {
      edited := Put(edited, SURFACE, Obj(EditSurface(surface.value.fields)));
    } else if surface.Some? {
      PutSame(edited, SURFACE);
    }
    EditsNoMore(properties, done);
    return Some(edited);
  }

  /** Properties of other names are edited by nothing and always readable. */
  lemma EditsNoMore(properties: seq<Field>, done: set<string>)
    requires done == set i | 0 <= i < |TIME_FIELDS| :: TIME_FIELDS[i]
    requires forall f :: f in properties && f.key in done ==> ReadableBound(f)
    ensures EditNamed(properties, done + {SURFACE}) == AllEdited(properties) && BoundsReadable(properties)
  {
    forall i | 0 <= i < |properties|
      ensures properties[i].key !in done + {SURFACE} ==>
                EditedProperty(properties[i]) == properties[i] && ReadableBound(properties[i])
      ensures properties[i].key in done + {SURFACE} && properties[i].key !in done ==> ReadableBound(properties[i])
    {
      TimeNames(properties[i].key);
    }
  }

  lemma {:induction false} PutSame(fields: seq<Field>, key: string)
    requires Get(fields, key).Some?
    ensures Put(fields, key, Get(fields, key).value) == fields
    decreases |fields|
  {
    if fields[0].key != key {
      PutSame(fields[1..], key);
    }
  }

  // Editing first and editing afterwards agree

  lemma {:induction false} FieldsCompilableAt(fields: seq<Field>, role: Role, skipEnum: bool)
    ensures CompilableFields(fields, role, skipEnum) <==>
            forall i :: 0 <= i < |fields| ==> CompilableField(fields[i], role, skipEnum)
    decreases |fields|
  {
    hide CompilableField;
    if fields != [] {
      FieldsCompilableAt(fields[1..], role, skipEnum);
      assert forall i :: 1 <= i < |fields| ==> fields[i] == fields[1..][i - 1];
    }
  }

  lemma RolesAlike(fields: seq<Field>, role: Role)
    requires !role.Properties?
    ensures CompiledFields(fields, role) == CompiledFields(fields, Plain)
  {
    FieldsCompiledAt(fields, role, 0);
    FieldsCompiledAt(fields, Plain, 0);
    forall i | 0 <= i < |fields| ensures CompiledFields(fields, role)[i] == CompiledFields(fields, Plain)[i] {
      FieldsCompiledAt(fields, role, i);
      FieldsCompiledAt(fields, Plain, i);
    }
  }

  lemma TimeCommutes(fields: seq<Field>)
    ensures CompiledFields(EditTime(fields), Plain) == EditTime(CompiledFields(fields, Plain))
  {
    hide Compiled, CompiledFields;
    GetCompiled(fields, Plain, MAXIMUM);
    ScalarsStay(if Get(fields, MAXIMUM).Some? then Get(fields, MAXIMUM).value else Null, Plain);
    PutCompiled(fields, Plain, MAXIMUM, UNBOUNDED);
    NumIsFixed(ChildRole(Plain, MAXIMUM));
    NamesApart();
  }

  lemma SurfaceCommutes(fields: seq<Field>)
    ensures CompiledFields(EditSurface(fields), Plain) == EditSurface(CompiledFields(fields, Plain))
  {
    hide Compiled, CompiledFields;
    GetCompiled(fields, Plain, CONST);
    ScalarsStay(if Get(fields, CONST).Some? then Get(fields, CONST).value else Null, Plain);
    WithoutCompiled(fields, Plain, CONST);
    PutCompiled(Without(fields, CONST), Plain, ENUM, BOTH);
    BothIsFixed(ChildRole(Plain, ENUM));
    NamesApart();
  }

  lemma ScalarsStay(value: Json, role: Role)
    ensures IsScalar(value) ==> Compiled(value, role) == value
    ensures IsScalar(Compiled(value, role)) ==> IsScalar(value)
  {
  }

  /** Editing a property and compiling it plainly is compiling it in its role. */
  lemma PropertyCommutes(f: Field)
    ensures Compiled(EditedProperty(f).value, ChildRole(Plain, f.key)) ==
            Compiled(f.value, ChildRole(Properties, f.key))
  {
    hide CompiledFields, EditTime, EditSurface;
    NamesApart();
    if f.value.Obj? && IsTimeField(f.key) {
      TimeCommutes(f.value.fields);
      RolesAlike(f.value.fields, TimeField);
    } else if f.value.Obj? && f.key == SURFACE {
      TimeNames(SURFACE);
      SurfaceCommutes(f.value.fields);
      RolesAlike(f.value.fields, Surface);
    }
  }

  function AllEdited(fields: seq<Field>): seq<Field> {
    EditNamed(fields, set f | f in fields :: f.key)
  }

  lemma AllEditedAt(fields: seq<Field>, i: nat)
    requires i < |fields|
    ensures |AllEdited(fields)| == |fields| && AllEdited(fields)[i] == EditedProperty(fields[i])
  {
    assert fields[i] in fields;
  }

  lemma PropertiesCommute(fields: seq<Field>)
    ensures Compiled(Obj(AllEdited(fields)), Plain) == Compiled(Obj(fields), Properties)
  {
    hide Compiled, AllEdited, EditedProperty, ChildRole, CompiledFields;
    var edited := AllEdited(fields);
    assert |edited| == |fields| by {
      if fields != [] {
        AllEditedAt(fields, 0);
      } else {
        assert AllEdited([]) == [] by {
          NoneEdited();
        }
      }
    }
    FieldsCompiledAt(edited, Plain, 0);
    FieldsCompiledAt(fields, Properties, 0);
    forall i | 0 <= i < |fields| ensures CompiledFields(edited, Plain)[i] == CompiledFields(fields, Properties)[i] {
      AllEditedAt(fields, i);
      EditKeepsKey(fields[i]);
      FieldsCompiledAt(edited, Plain, i);
      FieldsCompiledAt(fields, Properties, i);
      PropertyCommutes(fields[i]);
    }
    assert CompiledFields(edited, Plain) == CompiledFields(fields, Properties);
    ObjectCompiled(edited, Plain);
    ObjectCompiled(fields, Properties);
  }

  lemma NoneEdited()
    ensures AllEdited([]) == []
  {
  }

  lemma ObjectCompiled(fields: seq<Field>, role: Role)
    requires role.Plain? || role.Properties?
    ensures Compiled(Obj(fields), role) == Obj(CompiledFields(fields, role))
  {
    hide CompiledFields;
  }

  // What an edit keeps

  lemma {:induction false} WithoutMembers(fields: seq<Field>, key: string)
    requires DistinctKeys(fields)
    ensures DistinctKeys(Without(fields, key))
    ensures forall f :: f in Without(fields, key) <==> f in fields && f.key != key
    decreases |fields|
  {
    if fields != [] {
      var rest := fields[1..];
      assert DistinctKeys(rest);
      WithoutMembers(rest, key);
      forall f | f in rest ensures f.key != fields[0].key {
        var i :| 0 <= i < |rest| && rest[i] == f;
        assert fields[0].key != fields[i + 1].key;
      }
    }
  }

  lemma {:induction false} PutMembers(fields: seq<Field>, key: string, value: Json)
    requires DistinctKeys(fields)
    ensures DistinctKeys(Put(fields, key, value))
    ensures forall f :: f in Put(fields, key, value) <==> f == Field(key, value) || (f in fields && f.key != key)
    decreases |fields|
  {
    if fields != [] {
      var rest := fields[1..];
      assert DistinctKeys(rest);
      PutMembers(rest, key, value);
      forall f | f in rest ensures f.key != fields[0].key {
        var i :| 0 <= i < |rest| && rest[i] == f;
        assert fields[0].key != fields[i + 1].key;
      }
    }
  }

  lemma BothIsDistinct()
    ensures Distinct(BOTH) && Distinct(UNBOUNDED) && Compilable(BOTH, Plain)
  {
    var items := [Str("aar.mcp-tools.v8"), Str("aar.mcp-tools.v9")];
    assert items[1..] == [Str("aar.mcp-tools.v9")] && items[1..][1..] == [];
    assert CompilableItems(items[1..][1..]);
    assert CompilableItems(items[1..]);
  }

  /** Membership is enough for compilability. */
  lemma CompilableMembers(fields: seq<Field>, role: Role, skipEnum: bool)
    ensures CompilableFields(fields, role, skipEnum) <==> forall f :: f in fields ==> CompilableField(f, role, skipEnum)
  {
    hide CompilableField, CompilableFields;
    FieldsCompilableAt(fields, role, skipEnum);
  }

  lemma TimeKeepsCompilable(fields: seq<Field>)
    requires DistinctKeys(fields)
    ensures DistinctKeys(EditTime(fields))
    ensures CompilableFields(EditTime(fields), Plain, false) <==> CompilableFields(fields, TimeField, false)
  {
    hide CompilableFields;
    NamesApart();
    PutMembers(fields, MAXIMUM, UNBOUNDED);
    CompilableMembers(EditTime(fields), Plain, false);
    CompilableMembers(fields, TimeField, false);
    GetFinds(fields, MAXIMUM);
    forall f: Field ensures CompilableField(f, Plain, false) <==> CompilableField(f, TimeField, false) {
    }
    forall f | f in fields && f.key == MAXIMUM && IsFrozenBound(Get(fields, MAXIMUM))
      ensures CompilableField(f, Plain, false)
    {
      GetUnique(fields, f);
    }
  }

  lemma SurfaceKeepsCompilable(fields: seq<Field>)
    requires DistinctKeys(fields)
    ensures DistinctKeys(EditSurface(fields))
    ensures CompilableFields(EditSurface(fields), Plain, false) <==>
            CompilableFields(fields, Surface, Get(fields, CONST) == Some(V8))
  {
    hide CompilableFields;
    NamesApart();
    BothIsDistinct();
    var skip := Get(fields, CONST) == Some(V8);
    WithoutMembers(fields, CONST);
    PutMembers(Without(fields, CONST), ENUM, BOTH);
    CompilableMembers(EditSurface(fields), Plain, false);
    CompilableMembers(fields, Surface, skip);
    forall f: Field ensures CompilableField(f, Plain, false) <==> CompilableField(f, Surface, false) {
    }
    forall f: Field | f.key != ENUM ensures CompilableField(f, Surface, skip) <==> CompilableField(f, Plain, false) {
    }
    forall f | f in fields && f.key == CONST && skip ensures CompilableField(f, Plain, false) {
      GetUnique(fields, f);
    }
  }

  lemma PropertyKeepsCompilable(f: Field)
    requires Distinct(f.value)
    ensures Compilable(EditedProperty(f).value, ChildRole(Plain, f.key)) <==>
            Compilable(f.value, ChildRole(Properties, f.key))
  {
    hide CompilableFields, EditTime, EditSurface;
    NamesApart();
    if f.value.Obj? && IsTimeField(f.key) {
      TimeKeepsCompilable(f.value.fields);
    } else if f.value.Obj? && f.key == SURFACE {
      TimeNames(SURFACE);
      SurfaceKeepsCompilable(f.value.fields);
    } else if f.value.Obj? && f.key != PROPERTIES {
      assert ChildRole(Plain, f.key) == ChildRole(Properties, f.key) == Plain;
    }
  }

  lemma PropertiesKeepCompilable(fields: seq<Field>)
    requires Distinct(Obj(fields))
    ensures Compilable(Obj(fields), Properties) <==> BoundsReadable(fields) && Compilable(Obj(AllEdited(fields)), Plain)
  {
    hide AllEdited, EditedProperty, ChildRole, CompilableFields, ReadableBound;
    var edited := AllEdited(fields);
    EditedLength(fields);
    FieldsCompilableAt(edited, Plain, false);
    FieldsCompilableAt(fields, Properties, false);
    forall i | 0 <= i < |fields|
      ensures CompilableField(fields[i], Properties, false) <==>
              ReadableBound(fields[i]) && CompilableField(edited[i], Plain, false)
    {
      AllEditedAt(fields, i);
      EditKeepsKey(fields[i]);
      EditKeepsShape(fields[i]);
      PropertyKeepsCompilable(fields[i]);
    }
  }

  lemma EditKeepsShape(f: Field)
    ensures EditedProperty(f).value.Obj? <==> f.value.Obj?
  {
  }

  lemma EditedLength(fields: seq<Field>)
    ensures |AllEdited(fields)| == |fields|
  {
  }

  lemma DistinctMembers(fields: seq<Field>)
    requires DistinctKeys(fields)
    ensures Distinct(Obj(fields)) <==> forall f :: f in fields ==> Distinct(f.value)
  {
  }

  lemma TimeIsSmaller(fields: seq<Field>)
    requires Distinct(Obj(fields))
    ensures Distinct(Obj(EditTime(fields))) && Objects(Obj(EditTime(fields))) <= Objects(Obj(fields))
  {
    hide Distinct, IsFrozenBound;
    BothIsDistinct();
    DistinctHasKeys(fields);
    DistinctMembers(fields);
    PutMembers(fields, MAXIMUM, UNBOUNDED);
    ObjectsAfterPut(fields, MAXIMUM, UNBOUNDED);
    DistinctMembers(EditTime(fields));
  }

  lemma SurfaceIsSmaller(fields: seq<Field>)
    requires Distinct(Obj(fields))
    ensures Distinct(Obj(EditSurface(fields))) && Objects(Obj(EditSurface(fields))) <= Objects(Obj(fields))
  {
    hide Distinct;
    BothIsDistinct();
    DistinctHasKeys(fields);
    DistinctMembers(fields);
    WithoutMembers(fields, CONST);
    ObjectsAfterWithout(fields, CONST);
    PutMembers(Without(fields, CONST), ENUM, BOTH);
    ObjectsAfterPut(Without(fields, CONST), ENUM, BOTH);
    DistinctMembers(EditSurface(fields));
  }

  lemma DistinctHasKeys(fields: seq<Field>)
    requires Distinct(Obj(fields))
    ensures DistinctKeys(fields)
  {
  }

  lemma EditedPropertyIsSmaller(f: Field)
    requires Distinct(f.value)
    ensures Distinct(EditedProperty(f).value) && Objects(EditedProperty(f).value) <= Objects(f.value)
  {
    hide Distinct, Objects, EditTime, EditSurface;
    if f.value.Obj? {
      TimeIsSmaller(f.value.fields);
      SurfaceIsSmaller(f.value.fields);
    }
  }

  lemma {:induction false} EditedIsSmaller(fields: seq<Field>, edited: seq<Field>)
    requires |edited| == |fields|
    requires forall i :: 0 <= i < |fields| ==> Distinct(fields[i].value) && edited[i] == EditedProperty(fields[i])
    ensures forall i :: 0 <= i < |fields| ==> Distinct(edited[i].value)
    ensures ObjectsOfFields(edited) <= ObjectsOfFields(fields)
    decreases |fields|
  {
    hide Distinct, Objects, EditedProperty;
    if fields != [] {
      EditedPropertyIsSmaller(fields[0]);
      EditedIsSmaller(fields[1..], edited[1..]);
    }
  }

  lemma AllEditedIsSmaller(fields: seq<Field>)
    requires Distinct(Obj(fields))
    ensures Distinct(Obj(AllEdited(fields))) && Objects(Obj(AllEdited(fields))) <= Objects(Obj(fields))
  {
    EditedLength(fields);
    forall i | 0 <= i < |fields| ensures AllEdited(fields)[i] == EditedProperty(fields[i]) {
      AllEditedAt(fields, i);
    }
    EditedIsSmaller(fields, AllEdited(fields));
    EditNamedKeys(fields, set f | f in fields :: f.key);
  }

  // The pass

  /** An object with its own `properties` edited. */
  function EditedHere(fields: seq<Field>): seq<Field> {
    match Get(fields, PROPERTIES)
    case Some(Obj(properties)) => Put(fields, PROPERTIES, Obj(AllEdited(properties)))
    case _ => fields
  }

  /** The assignments of an object go through: its `properties`, if any, is an object with readable bounds. */
  predicate PropertiesReadable(fields: seq<Field>) {
    match Get(fields, PROPERTIES)
    case Some(Obj(properties)) => BoundsReadable(properties)
    case Some(_) => false
    case None => true
  }

  /** After editing an object's own `properties`, each value compiled plainly is the value compiled
      in its role, and nothing gets deeper or loses its distinct keys. */
  lemma EditedHereAt(fields: seq<Field>, i: nat)
    requires Distinct(Obj(fields)) && i < |fields|
    requires PropertiesReadable(fields)
    ensures |EditedHere(fields)| == |fields|
    ensures var g := EditedHere(fields)[i]; var f := fields[i];
      && g.key == f.key && Distinct(g.value) && Objects(g.value) < Objects(Obj(fields))
      && Compiled(g.value, Plain) == Compiled(f.value, ChildRole(Plain, f.key))
      && (Compilable(g.value, Plain) <==> CompilableField(f, Plain, false))
  {
    hide Compiled, Compilable, AllEdited, CompilableField;
    ObjectsInField(fields, i);
    FoundAt(fields, i);
    if j :| 0 <= j < |fields| && fields[j].key == PROPERTIES {
      FoundAt(fields, j);
      var properties := fields[j].value.fields;
      ObjectsInField(fields, j);
      AllEditedIsSmaller(properties);
      PutInPlace(fields, j, Obj(AllEdited(properties)));
      if i == j {
        PropertiesCommute(properties);
        PropertiesKeepCompilable(properties);
      }
    } else {
      GetFinds(fields, PROPERTIES);
    }
    PlainField(fields[i]);
  }

  lemma PlainField(f: Field)
    ensures f.key != PROPERTIES ==> ChildRole(Plain, f.key) == Plain
    ensures f.key != PROPERTIES ==> (CompilableField(f, Plain, false) <==> Compilable(f.value, Plain))
    ensures f.key == PROPERTIES && f.value.Obj? ==>
              (CompilableField(f, Plain, false) <==> Compilable(f.value, Properties))
  {
    hide Compilable;
  }

  /** `compile_node`. It raises, here `None`, exactly where a `properties` it meets is no object or has
      an unreadable bound, and otherwise leaves the compiled value. */
  method CompileNode(value: Json) returns (r: Option<Json>)
    requires Distinct(value)
    ensures r == if Compilable(value, Plain) then Some(Compiled(value, Plain)) else None
    decreases Objects(value), value, 1
  {
    match value
    case Arr(items) =>
      hide CompiledItems, CompilableItems, ObjectsOfItems;
      var done: seq<Json> := [];
      NthCompiled(items, 0);
      ItemsCompilableAt(items);
      while |done| < |items|
        invariant |done| <= |items|
        invariant forall j :: 0 <= j < |done| ==> Compilable(items[j], Plain) && done[j] == CompiledItems(items)[j]
      {
        ObjectsInItem(items, |done|);
        NthCompiled(items, |done|);
        var item := CompileNode(items[|done|]);
        if item.None? {
          return None;
        }
        done := done + [item.value];
      }
      assert done == CompiledItems(items);
      return Some(Arr(done));
    case Obj(fields) =>
      r := CompileObject(fields);
    case _ =>
      return Some(value);
  }

  /** The assignments `compile_node` makes in one object, before it goes on into its values. */
  method EditHere(fields: seq<Field>) returns (r: Option<seq<Field>>)
    requires Distinct(Obj(fields))
    ensures r == if PropertiesReadable(fields) then Some(EditedHere(fields)) else None
  {
    hide Distinct, AllEdited, BoundsReadable;
    match Get(fields, PROPERTIES) {
      case None =>
        return Some(fields);
      case Some(Obj(properties)) =>
        PropertiesDistinct(fields);
        var edited := EditProperties(properties);
        return if edited.None? then None else Some(Put(fields, PROPERTIES, Obj(edited.value)));
      case Some(_) =>
        return None;
    }
  }

  method CompileObject(fields: seq<Field>) returns (r: Option<Json>)
    requires Distinct(Obj(fields))
    ensures r == if Compilable(Obj(fields), Plain) then Some(Compiled(Obj(fields), Plain)) else None
    decreases Objects(Obj(fields)), Obj(fields), 0
  {
    hide Compiled, Compilable, Distinct, Objects, CompilableField, CompiledFields, EditedHere, PropertiesReadable;
    FieldsCompilableAt(fields, Plain, false);
    ObjectCompilable(fields);
    ObjectCompiled(fields, Plain);
    FieldsCompiledAt(fields, Plain, 0);
    var edited := EditHere(fields);
    if edited.None? {
      BadProperties(fields);
      return None;
    }
    var current := edited.value;
    EditedHereLength(fields);
    var done: seq<Field> := [];
    while |done| < |current|
      invariant |done| <= |current| == |fields|
      invariant forall j :: 0 <= j < |done| ==>
                  CompilableField(fields[j], Plain, false) && done[j] == CompiledFields(fields, Plain)[j]
    {
      var i := |done|;
      EditedHereAt(fields, i);
      FieldsCompiledAt(fields, Plain, i);
      var child := CompileNode(current[i].value);
      if child.None? {
        return None;
      }
      done := done + [Field(current[i].key, child.value)];
    }
    assert done == CompiledFields(fields, Plain);
    return Some(Obj(done));
  }

  lemma EditedHereLength(fields: seq<Field>)
    requires Distinct(Obj(fields)) && PropertiesReadable(fields)
    ensures |EditedHere(fields)| == |fields|
  {
    if fields != [] {
      EditedHereAt(fields, 0);
    }
  }

  lemma {:induction false} ItemsCompilableAt(items: seq<Json>)
    ensures CompilableItems(items) <==> forall i :: 0 <= i < |items| ==> Compilable(items[i], Plain)
    decreases |items|
  {
    hide Compilable;
    if items != [] {
      ItemsCompilableAt(items[1..]);
      assert forall i :: 1 <= i < |items| ==> items[i] == items[1..][i - 1];
    }
  }

  lemma ObjectCompilable(fields: seq<Field>)
    ensures Compilable(Obj(fields), Plain) <==> CompilableFields(fields, Plain, false)
  {
    hide CompilableFields;
  }

  lemma BadProperties(fields: seq<Field>)
    requires !PropertiesReadable(fields)
    ensures !Compilable(Obj(fields), Plain)
  {
    hide CompilableFields, ReadableBound;
    NamesApart();
    GetFinds(fields, PROPERTIES);
    CompilableMembers(fields, Plain, false);
    var properties := Get(fields, PROPERTIES).value;
    if properties.Obj? {
      CompilableMembers(properties.fields, Properties, false);
    }
    assert !CompilableField(Field(PROPERTIES, properties), Plain, false);
  }

  lemma PropertiesDistinct(fields: seq<Field>)
    requires Distinct(Obj(fields)) && Get(fields, PROPERTIES).Some? && Get(fields, PROPERTIES).value.Obj?
    ensures DistinctKeys(Get(fields, PROPERTIES).value.fields)
  {
    GetFinds(fields, PROPERTIES);
  }
}

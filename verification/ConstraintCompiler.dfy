/** `current_contract_documents` of src/aar/schema_generator.py, the in-place pass from frozen v8 contracts to v9. */
module ConstraintCompiler {
  import opened JsonValues

  const PROPERTIES: string := "properties"
  const SURFACE: string := "surface_version"
  const MAXIMUM: string := "maximum"
  const CONST: string := "const"
  const ENUM: string := "enum"
  const V8: Json := Str("aar.mcp-tools.v8")
  const BOTH: Json := Arr([Str("aar.mcp-tools.v8"), Str("aar.mcp-tools.v9")])
  const UNBOUNDED: Json := Num(9_223_372_036_854_775_807)

  predicate IsTimeField(name: string) {
    name == "budget_wall_time_ms" || name == "total_wall_time_ms" || name == "cell_wall_time_ms"
    || name == "remaining_wall_time_ms"
  }

  predicate IsFrozenBound(value: Option<Json>) {
    value == Some(Num(60_000)) || value == Some(Num(900_000))
  }

  // The edits

  function Without(fields: seq<Field>, key: string): seq<Field> {
    if fields == [] then []
    else if fields[0].key == key then Without(fields[1..], key)
    else [fields[0]] + Without(fields[1..], key)
  }

  function EditTime(fields: seq<Field>): seq<Field> {
    if IsFrozenBound(Get(fields, MAXIMUM)) then Put(fields, MAXIMUM, UNBOUNDED) else fields
  }

  function EditSurface(fields: seq<Field>): seq<Field> {
    if Get(fields, CONST) == Some(V8) then Put(Without(fields, CONST), ENUM, BOTH) else fields
  }

  // What the pass computes

  /** What an object is to the object around it. */
  datatype Role = Plain | Properties | TimeField | Surface

  function ChildRole(role: Role, key: string): Role {
    if key == PROPERTIES then Properties
    else if role.Properties? && IsTimeField(key) then TimeField
    else if role.Properties? && key == SURFACE then Surface
    else Plain
  }

  function Edited(role: Role, fields: seq<Field>): seq<Field> {
    if role.TimeField? then EditTime(fields) else if role.Surface? then EditSurface(fields) else fields
  }

  function Compiled(value: Json, role: Role): Json
    decreases value
  {
    match value
    case Arr(items) => Arr(CompiledItems(items))
    case Obj(fields) => Obj(Edited(role, CompiledFields(fields, role)))
    case _ => value
  }

  function CompiledItems(items: seq<Json>): seq<Json>
    decreases items
  {
    if items == [] then [] else [Compiled(items[0], Plain)] + CompiledItems(items[1..])
  }

  function CompiledFields(fields: seq<Field>, role: Role): seq<Field>
    decreases fields
  {
    if fields == [] then []
    else
      [Field(fields[0].key, Compiled(fields[0].value, ChildRole(role, fields[0].key)))]
      + CompiledFields(fields[1..], role)
  }

  /** Whether `field.get("maximum")` can be looked up among the frozen bounds: lists and objects cannot. */
  predicate ReadableBound(f: Field) {
    IsTimeField(f.key) && f.value.Obj? ==>
      match Get(f.value.fields, MAXIMUM)
      case Some(bound) => !bound.Arr? && !bound.Obj?
      case None => true
  }

  /** The pass raises where a `properties` it meets is not an object, or holds a time allowance whose
      bound is unreadable; it does not meet what the surface edit has overwritten. */
  predicate Compilable(value: Json, role: Role)
    decreases value
  {
    match value
    case Arr(items) => CompilableItems(items)
    case Obj(fields) => CompilableFields(fields, role, role.Surface? && Get(fields, CONST) == Some(V8))
    case _ => true
  }

  predicate CompilableItems(items: seq<Json>)
    decreases items
  {
    items == [] || (Compilable(items[0], Plain) && CompilableItems(items[1..]))
  }

  predicate CompilableFields(fields: seq<Field>, role: Role, skipEnum: bool)
    decreases fields
  {
    fields == [] || (CompilableField(fields[0], role, skipEnum) && CompilableFields(fields[1..], role, skipEnum))
  }

  predicate CompilableField(f: Field, role: Role, skipEnum: bool)
    decreases f
  {
    || (skipEnum && f.key == ENUM)
    || ((f.key == PROPERTIES ==> f.value.Obj?) && (role.Properties? ==> ReadableBound(f))
        && Compilable(f.value, ChildRole(role, f.key)))
  }

  // Lookups through the pass

  lemma NamesApart()
    ensures PROPERTIES != MAXIMUM && PROPERTIES != CONST && PROPERTIES != ENUM && PROPERTIES != SURFACE
    ensures MAXIMUM != CONST && MAXIMUM != ENUM && CONST != ENUM
  {
    assert |PROPERTIES| == 10 && |MAXIMUM| == 7 && |CONST| == 5 && |ENUM| == 4 && |SURFACE| == 15;
  }

  lemma {:induction false} GetCompiled(fields: seq<Field>, role: Role, key: string)
    ensures Get(CompiledFields(fields, role), key) ==
            match Get(fields, key)
            case None => None
            case Some(v) => Some(Compiled(v, ChildRole(role, key)))
    decreases |fields|
  {
    hide Compiled, ChildRole;
    if fields != [] {
      GetCompiled(fields[1..], role, key);
      assert CompiledFields(fields, role)[1..] == CompiledFields(fields[1..], role);
    }
  }

  lemma {:induction false} FieldsCompiledAt(fields: seq<Field>, role: Role, i: nat)
    ensures |CompiledFields(fields, role)| == |fields|
    ensures i < |fields| ==>
              CompiledFields(fields, role)[i] ==
              Field(fields[i].key, Compiled(fields[i].value, ChildRole(role, fields[i].key)))
    decreases |fields|
  {
    hide Compiled, ChildRole;
    if fields != [] {
      FieldsCompiledAt(fields[1..], role, if i == 0 then 0 else i - 1);
    }
  }

  lemma {:induction false} PutCompiled(fields: seq<Field>, role: Role, key: string, value: Json)
    ensures CompiledFields(Put(fields, key, value), role) ==
            Put(CompiledFields(fields, role), key, Compiled(value, ChildRole(role, key)))
    decreases |fields|
  {
    hide Compiled, ChildRole;
    if fields != [] {
      var first := Field(fields[0].key, Compiled(fields[0].value, ChildRole(role, fields[0].key)));
      var rest := CompiledFields(fields[1..], role);
      assert CompiledFields(fields, role) == [first] + rest;
      assert ([first] + rest)[1..] == rest;
      if fields[0].key == key {
        assert ([Field(key, value)] + fields[1..])[1..] == fields[1..];
      } else {
        PutCompiled(fields[1..], role, key, value);
        assert ([fields[0]] + Put(fields[1..], key, value))[1..] == Put(fields[1..], key, value);
      }
    }
  }

  lemma {:induction false} WithoutCompiled(fields: seq<Field>, role: Role, key: string)
    ensures CompiledFields(Without(fields, key), role) == Without(CompiledFields(fields, role), key)
    decreases |fields|
  {
    hide Compiled, ChildRole;
    if fields != [] {
      WithoutCompiled(fields[1..], role, key);
      var first := Field(fields[0].key, Compiled(fields[0].value, ChildRole(role, fields[0].key)));
      var rest := CompiledFields(fields[1..], role);
      assert ([first] + rest)[1..] == rest;
      assert ([fields[0]] + Without(fields[1..], key))[1..] == Without(fields[1..], key);
    }
  }

  lemma {:induction false} GetWithout(fields: seq<Field>, key: string, other: string)
    ensures Get(Without(fields, key), other) == if other == key then None else Get(fields, other)
    decreases |fields|
  {
    if fields != [] {
      GetWithout(fields[1..], key, other);
      assert ([fields[0]] + Without(fields[1..], key))[1..] == Without(fields[1..], key);
    }
  }

  lemma BothIsFixed(role: Role)
    ensures Compiled(BOTH, role) == BOTH
  {
    var items := [Str("aar.mcp-tools.v8"), Str("aar.mcp-tools.v9")];
    assert items[1..] == [Str("aar.mcp-tools.v9")] && items[1..][1..] == [];
    assert CompiledItems(items[1..]) == [Str("aar.mcp-tools.v9")];
  }

  // Idempotence

  lemma EditedIsFixed(fields: seq<Field>, role: Role)
    requires CompiledFields(fields, role) == fields
    ensures Edited(role, CompiledFields(Edited(role, fields), role)) == Edited(role, fields)
  {
    hide Compiled, CompiledFields;
    NamesApart();
    if role.TimeField? && IsFrozenBound(Get(fields, MAXIMUM)) {
      PutCompiled(fields, role, MAXIMUM, UNBOUNDED);
      NumIsFixed(ChildRole(role, MAXIMUM));
      GetPut(fields, MAXIMUM, UNBOUNDED, MAXIMUM);
    } else if role.Surface? && Get(fields, CONST) == Some(V8) {
      WithoutCompiled(fields, role, CONST);
      PutCompiled(Without(fields, CONST), role, ENUM, BOTH);
      BothIsFixed(ChildRole(role, ENUM));
      GetWithout(fields, CONST, CONST);
      GetPut(Without(fields, CONST), ENUM, BOTH, CONST);
    }
  }

  lemma NumIsFixed(role: Role)
    ensures Compiled(UNBOUNDED, role) == UNBOUNDED
  {
  }

  /** Compiling twice is compiling once. */
  lemma {:induction false} CompilingIsIdempotent(value: Json, role: Role)
    ensures Compiled(Compiled(value, role), role) == Compiled(value, role)
    decreases value
  {
    hide Edited;
    match value
    case Arr(items) => ItemsIdempotent(items);
    case Obj(fields) =>
      FieldsIdempotent(fields, role);
      EditedIsFixed(CompiledFields(fields, role), role);
    case _ =>
  }

  lemma {:induction false} ItemsIdempotent(items: seq<Json>)
    ensures CompiledItems(CompiledItems(items)) == CompiledItems(items)
    decreases items
  {
    if items != [] {
      CompilingIsIdempotent(items[0], Plain);
      ItemsIdempotent(items[1..]);
      var done := CompiledItems(items);
      assert done[0] == Compiled(items[0], Plain) && done[1..] == CompiledItems(items[1..]);
    }
  }

  lemma {:induction false} FieldsIdempotent(fields: seq<Field>, role: Role)
    ensures CompiledFields(CompiledFields(fields, role), role) == CompiledFields(fields, role)
    decreases fields
  {
    hide ChildRole;
    if fields != [] {
      CompilingIsIdempotent(fields[0].value, ChildRole(role, fields[0].key));
      FieldsIdempotent(fields[1..], role);
      var done := CompiledFields(fields, role);
      assert done[0] == Field(fields[0].key, Compiled(fields[0].value, ChildRole(role, fields[0].key)));
      assert done[1..] == CompiledFields(fields[1..], role);
    }
  }

  // Only the named places change

  /** One step into a document. */
  datatype Hop = At(key: string) | Nth(index: nat)

  function Look(value: Json, path: seq<Hop>): Option<Json>
    decreases |path|
  {
    if path == [] then Some(value)
    else
      match (value, path[0])
      case (Obj(fields), At(key)) =>
        (match Get(fields, key) case None => None case Some(v) => Look(v, path[1..]))
      case (Arr(items), Nth(i)) => if i < |items| then Look(items[i], path[1..]) else None
      case _ => None
  }

  function HopRole(role: Role, hop: Hop): Role {
    match hop
    case At(key) => ChildRole(role, key)
    case Nth(_) => Plain
  }

  function RoleAt(role: Role, path: seq<Hop>): Role
    decreases |path|
  {
    if path == [] then role else RoleAt(HopRole(role, path[0]), path[1..])
  }

  /** The hop leads to a field that an edit of its object may write or remove. */
  predicate EditedHop(role: Role, hop: Hop) {
    hop.At? && ((role.TimeField? && hop.key == MAXIMUM) || (role.Surface? && (hop.key == CONST || hop.key == ENUM)))
  }

  predicate PassesEdit(role: Role, path: seq<Hop>)
    decreases |path|
  {
    path != [] && (EditedHop(role, path[0]) || PassesEdit(HopRole(role, path[0]), path[1..]))
  }

  /** The three hops name a bound of a time allowance, or the surface version, under `properties`. */
  predicate NamedPlace(path: seq<Hop>, i: nat)
    requires i + 2 < |path|
  {
    && path[i] == At(PROPERTIES) && path[i + 1].At? && path[i + 2].At?
    && ((IsTimeField(path[i + 1].key) && path[i + 2].key == MAXIMUM)
        || (path[i + 1].key == SURFACE && (path[i + 2].key == CONST || path[i + 2].key == ENUM)))
  }

  predicate PassesNamed(path: seq<Hop>) {
    exists i :: 0 <= i < |path| - 2 && NamedPlace(path, i)
  }

  /** At the top of a document, the edits lie at the named places and nowhere else. */
  lemma {:induction false} EditsAreNamed(path: seq<Hop>)
    ensures PassesEdit(Plain, path) <==> PassesNamed(path)
  {
    EditsFromRole(Plain, path);
  }

  predicate StartsNamed(role: Role, path: seq<Hop>) {
    || (role.Properties? && |path| >= 2 && path[0].At? && path[1].At? &&
        ((IsTimeField(path[0].key) && path[1].key == MAXIMUM)
         || (path[0].key == SURFACE && (path[1].key == CONST || path[1].key == ENUM))))
    || (|path| >= 1 && EditedHop(role, path[0]))
  }

  lemma {:induction false} EditsFromRole(role: Role, path: seq<Hop>)
    ensures PassesEdit(role, path) <==> StartsNamed(role, path) || PassesNamed(path)
    decreases |path|
  {
    if path != [] {
      var rest := path[1..];
      EditsFromRole(HopRole(role, path[0]), rest);
      NamedInRest(path);
      NamesApart();
    }
  }

  lemma NamedInRest(path: seq<Hop>)
    requires path != []
    ensures PassesNamed(path) <==> PassesNamed(path[1..]) || (|path| >= 3 && NamedPlace(path, 0))
  {
    var rest := path[1..];
    forall i | 0 <= i < |rest| - 2 && NamedPlace(rest, i) ensures NamedPlace(path, i + 1) {
    }
    forall i | 1 <= i < |path| - 2 && NamedPlace(path, i) ensures NamedPlace(rest, i - 1) {
    }
  }

  lemma GetEdited(fields: seq<Field>, role: Role, key: string)
    requires !EditedHop(role, At(key))
    ensures Get(Edited(role, fields), key) == Get(fields, key)
  {
    if role.TimeField? {
      GetPut(fields, MAXIMUM, UNBOUNDED, key);
    } else if role.Surface? {
      GetWithout(fields, CONST, key);
      GetPut(Without(fields, CONST), ENUM, BOTH, key);
    }
  }

  lemma {:induction false} NthCompiled(items: seq<Json>, i: nat)
    ensures |CompiledItems(items)| == |items|
    ensures i < |items| ==> CompiledItems(items)[i] == Compiled(items[i], Plain)
    decreases |items|
  {
    hide Compiled;
    if items != [] {
      NthCompiled(items[1..], if i == 0 then 0 else i - 1);
    }
  }

  lemma {:induction false} LookCompiled(value: Json, role: Role, path: seq<Hop>)
    requires !PassesEdit(role, path)
    ensures Look(Compiled(value, role), path) ==
            match Look(value, path)
            case None => None
            case Some(v) => Some(Compiled(v, RoleAt(role, path)))
    decreases |path|
  {
    hide Edited, ChildRole;
    if path != [] {
      match (value, path[0])
      case (Obj(fields), At(key)) =>
        GetEdited(CompiledFields(fields, role), role, key);
        GetCompiled(fields, role, key);
        if Get(fields, key).Some? {
          LookCompiled(Get(fields, key).value, ChildRole(role, key), path[1..]);
        }
      case (Arr(items), Nth(i)) =>
        NthCompiled(items, i);
        if i < |items| {
          LookCompiled(items[i], Plain, path[1..]);
        }
      case _ =>
    }
  }

  predicate IsScalar(value: Json) {
    !value.Arr? && !value.Obj?
  }

  /** Off the named places, no scalar changes, appears or disappears. */
  lemma OnlyNamedPlacesChange(document: Json, path: seq<Hop>)
    requires !PassesNamed(path)
    ensures Look(document, path).None? <==> Look(Compiled(document, Plain), path).None?
    ensures Look(document, path).Some? && IsScalar(Look(document, path).value) ==>
              Look(Compiled(document, Plain), path) == Look(document, path)
  {
    EditsAreNamed(path);
    LookCompiled(document, Plain, path);
  }

  /** At a bound of a named time allowance, the two frozen values and no others are raised. */
  lemma BoundsExactly(document: Json, path: seq<Hop>, name: string, bound: Json)
    requires IsTimeField(name) && !PassesNamed(path) && IsScalar(bound)
    requires Look(document, path + [At(PROPERTIES), At(name), At(MAXIMUM)]) == Some(bound)
    ensures Look(Compiled(document, Plain), path + [At(PROPERTIES), At(name), At(MAXIMUM)]) ==
            Some(if IsFrozenBound(Some(bound)) then UNBOUNDED else bound)
  {
    hide Compiled, IsTimeField;
    var whole := path + [At(PROPERTIES), At(name), At(MAXIMUM)];
    var upper := path + [At(PROPERTIES), At(name)];
    assert whole == upper + [At(MAXIMUM)];
    LookSplits(document, upper, At(MAXIMUM));
    LookSplits(Compiled(document, Plain), upper, At(MAXIMUM));
    UpperIsUnedited(path, name);
    EditsAreNamed(upper);
    LookCompiled(document, Plain, upper);
    RoleOfUpper(Plain, path, name);
    BoundOfField(Look(document, upper).value, bound);
  }

  lemma BoundOfField(value: Json, bound: Json)
    requires value.Obj? && Get(value.fields, MAXIMUM) == Some(bound) && IsScalar(bound)
    ensures Look(Compiled(value, TimeField), [At(MAXIMUM)]) ==
            Some(if IsFrozenBound(Some(bound)) then UNBOUNDED else bound)
  {
    hide CompiledFields;
    GetCompiled(value.fields, TimeField, MAXIMUM);
    GetPut(CompiledFields(value.fields, TimeField), MAXIMUM, UNBOUNDED, MAXIMUM);
    assert [At(MAXIMUM)][1..] == [];
  }

  lemma {:induction false} LookSplits(value: Json, path: seq<Hop>, hop: Hop)
    ensures Look(value, path + [hop]) ==
            match Look(value, path) case None => None case Some(v) => Look(v, [hop])
    decreases |path|
  {
    if path == [] {
      assert path + [hop] == [hop];
    } else {
      assert (path + [hop])[1..] == path[1..] + [hop];
      match (value, path[0])
      case (Obj(fields), At(key)) =>
        if Get(fields, key).Some? {
          LookSplits(Get(fields, key).value, path[1..], hop);
        }
      case (Arr(items), Nth(i)) =>
        if i < |items| {
          LookSplits(items[i], path[1..], hop);
        }
      case _ =>
    }
  }

  lemma {:induction false} RoleOfUpper(role: Role, path: seq<Hop>, name: string)
    requires IsTimeField(name)
    ensures RoleAt(role, path + [At(PROPERTIES), At(name)]) == TimeField
    decreases |path|
  {
    if path == [] {
      var upper := [At(PROPERTIES), At(name)];
      assert path + upper == upper && upper[1..] == [At(name)] && upper[1..][1..] == [];
      assert HopRole(role, At(PROPERTIES)) == Properties;
      assert RoleAt(Properties, [At(name)]) == RoleAt(HopRole(Properties, At(name)), []);
    } else {
      assert (path + [At(PROPERTIES), At(name)])[1..] == path[1..] + [At(PROPERTIES), At(name)];
      RoleOfUpper(HopRole(role, path[0]), path[1..], name);
    }
  }

  lemma UpperIsUnedited(path: seq<Hop>, name: string)
    requires IsTimeField(name) && !PassesNamed(path)
    ensures !PassesNamed(path + [At(PROPERTIES), At(name)])
  {
    hide IsTimeField;
    NamesApart();
    TimeNameApart(name);
    var upper := path + [At(PROPERTIES), At(name)];
    forall i | 0 <= i < |upper| - 2 ensures !NamedPlace(upper, i) {
      if i < |path| - 2 {
        assert !NamedPlace(path, i);
        assert upper[i] == path[i] && upper[i + 1] == path[i + 1] && upper[i + 2] == path[i + 2];
      }
    }
  }

  lemma TimeNameApart(name: string)
    requires IsTimeField(name)
    ensures name != MAXIMUM && name != CONST && name != ENUM
  {
    assert |name| > 10 && |MAXIMUM| == 7 && |CONST| == 5 && |ENUM| == 4;
  }
}

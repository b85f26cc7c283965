/** The pass and the references of a document: rewriting them commutes with compiling, and compiling
    takes away exactly those in what it overwrites. */
module ConstraintBundling {
  import opened JsonValues
  import opened SchemaBundler
  import opened ConstraintCompiler

  // Rewriting references commutes with the pass

  lemma RefNameApart()
    ensures REF != MAXIMUM && REF != CONST && REF != ENUM && REF != PROPERTIES
    ensures DEFS != PROPERTIES && SCHEMA != PROPERTIES && REF != DEFS
  {
    assert |REF| == 4 && REF[0] == '$' && ENUM[0] == 'e' && CONST[0] == 'c' && MAXIMUM[0] == 'm';
    assert |PROPERTIES| == 10 && PROPERTIES[0] == 'p' && DEFS[0] == '$' && SCHEMA[0] == '$' && |DEFS| == 5;
  }

  lemma {:induction false} PutRewritten(file: string, fields: seq<Field>, skipRef: bool, key: string, value: Json)
    requires key != REF
    ensures RewrittenFields(file, Put(fields, key, value), skipRef) ==
            Put(RewrittenFields(file, fields, skipRef), key, Rewritten(file, value))
    decreases |fields|
  {
    hide Rewritten;
    if fields == [] {
      assert [Field(key, value)][1..] == [];
      assert [] + [Field(key, Rewritten(file, value))] == [Field(key, Rewritten(file, value))];
    } else if fields[0].key == key {
      assert ([Field(key, value)] + fields[1..])[1..] == fields[1..];
      var rest := RewrittenFields(file, fields[1..], skipRef);
      assert RewrittenFields(file, fields, skipRef) == [Field(key, Rewritten(file, fields[0].value))] + rest;
      assert ([Field(key, Rewritten(file, fields[0].value))] + rest)[1..] == rest;
    } else {
      PutRewritten(file, fields[1..], skipRef, key, value);
      var more := Put(fields[1..], key, value);
      assert ([fields[0]] + more)[1..] == more;
      var rest := RewrittenFields(file, fields[1..], skipRef);
      if skipRef && fields[0].key == REF {
        assert [] + RewrittenFields(file, more, skipRef) == RewrittenFields(file, more, skipRef);
        assert [] + rest == rest;
      } else {
        assert ([Field(fields[0].key, Rewritten(file, fields[0].value))] + rest)[1..] == rest;
      }
    }
  }

  lemma {:induction false} WithoutRewritten(file: string, fields: seq<Field>, skipRef: bool, key: string)
    ensures RewrittenFields(file, Without(fields, key), skipRef) == Without(RewrittenFields(file, fields, skipRef), key)
    decreases |fields|
  {
    hide Rewritten;
    if fields != [] {
      WithoutRewritten(file, fields[1..], skipRef, key);
      var rest := RewrittenFields(file, fields[1..], skipRef);
      var kept := Without(fields[1..], key);
      assert ([fields[0]] + kept)[1..] == kept;
      if skipRef && fields[0].key == REF {
        assert RewrittenFields(file, fields, skipRef) == rest;
      } else {
        var first := Field(fields[0].key, Rewritten(file, fields[0].value));
        assert RewrittenFields(file, fields, skipRef) == [first] + rest;
        assert ([first] + rest)[1..] == rest;
      }
    }
  }

  lemma {:induction false} GetRewrittenField(file: string, fields: seq<Field>, skipRef: bool, key: string)
    requires key != REF
    ensures Get(RewrittenFields(file, fields, skipRef), key) ==
            match Get(fields, key) case None => None case Some(v) => Some(Rewritten(file, v))
    decreases |fields|
  {
    hide Rewritten;
    if fields != [] {
      GetRewrittenField(file, fields[1..], skipRef, key);
      var rest := RewrittenFields(file, fields[1..], skipRef);
      if skipRef && fields[0].key == REF {
        assert RewrittenFields(file, fields, skipRef) == rest;
      } else {
        var first := Field(fields[0].key, Rewritten(file, fields[0].value));
        assert ([first] + rest)[1..] == rest;
      }
    }
  }

  lemma RewrittenScalar(file: string, value: Json)
    ensures IsScalar(value) ==> Rewritten(file, value) == value
    ensures IsScalar(Rewritten(file, value)) ==> IsScalar(value)
  {
  }

  lemma BothIsRewritten(file: string)
    ensures Rewritten(file, BOTH) == BOTH
  {
    var items := [Str("aar.mcp-tools.v8"), Str("aar.mcp-tools.v9")];
    assert items[1..] == [Str("aar.mcp-tools.v9")] && items[1..][1..] == [];
    assert RewrittenItems(file, items[1..]) == [Str("aar.mcp-tools.v9")];
  }

  lemma EditedRewritten(file: string, fields: seq<Field>, skipRef: bool, role: Role)
    ensures RewrittenFields(file, Edited(role, fields), skipRef) == Edited(role, RewrittenFields(file, fields, skipRef))
  {
    hide Rewritten, RewrittenFields;
    RefNameApart();
    if role.TimeField? {
      GetRewrittenField(file, fields, skipRef, MAXIMUM);
      RewrittenScalar(file, if Get(fields, MAXIMUM).Some? then Get(fields, MAXIMUM).value else Null);
      RewrittenScalar(file, UNBOUNDED);
      PutRewritten(file, fields, skipRef, MAXIMUM, UNBOUNDED);
    } else if role.Surface? {
      GetRewrittenField(file, fields, skipRef, CONST);
      RewrittenScalar(file, if Get(fields, CONST).Some? then Get(fields, CONST).value else Null);
      WithoutRewritten(file, fields, skipRef, CONST);
      PutRewritten(file, Without(fields, CONST), skipRef, ENUM, BOTH);
      BothIsRewritten(file);
    }
  }

  /** The edits leave a reference in front alone. */
  lemma EditedAfterRef(ref: Field, rest: seq<Field>, role: Role)
    requires ref.key == REF
    ensures Edited(role, [ref] + rest) == [ref] + Edited(role, rest)
  {
    RefNameApart();
    var fields := [ref] + rest;
    assert fields[1..] == rest;
    assert Without(fields, CONST) == [ref] + Without(rest, CONST);
    assert ([ref] + Without(rest, CONST))[1..] == Without(rest, CONST);
  }

  lemma RefOfCompiled(fields: seq<Field>, role: Role)
    ensures RefOf(Edited(role, CompiledFields(fields, role))) == RefOf(fields)
  {
    hide Compiled, CompiledFields, Edited;
    RefNameApart();
    GetEdited(CompiledFields(fields, role), role, REF);
    GetCompiled(fields, role, REF);
    StringsStay(if Get(fields, REF).Some? then Get(fields, REF).value else Null, ChildRole(role, REF));
  }

  lemma StringsStay(value: Json, role: Role)
    ensures value.Str? ==> Compiled(value, role) == value
    ensures Compiled(value, role).Str? ==> value.Str?
  {
  }

  /** Rewriting the references of a compiled value is compiling the rewritten value. */
  lemma {:induction false} CompilingCommutesWithRewriting(file: string, value: Json, role: Role)
    ensures Rewritten(file, Compiled(value, role)) == Compiled(Rewritten(file, value), role)
    decreases value
  {
    match value
    case Arr(items) => ItemsCommute(file, items);
    case Obj(fields) => ObjectCommutes(file, fields, role);
    case _ =>
  }

  lemma {:induction false} ItemsCommute(file: string, items: seq<Json>)
    ensures RewrittenItems(file, CompiledItems(items)) == CompiledItems(RewrittenItems(file, items))
    decreases items
  {
    if items != [] {
      CompilingCommutesWithRewriting(file, items[0], Plain);
      ItemsCommute(file, items[1..]);
      assert CompiledItems(items)[1..] == CompiledItems(items[1..]);
      assert RewrittenItems(file, items)[1..] == RewrittenItems(file, items[1..]);
    }
  }

  lemma {:induction false} FieldsCommute(file: string, fields: seq<Field>, skipRef: bool, role: Role)
    ensures RewrittenFields(file, CompiledFields(fields, role), skipRef) ==
            CompiledFields(RewrittenFields(file, fields, skipRef), role)
    decreases fields, 0
  {
    hide ChildRole;
    if fields != [] {
      CompilingCommutesWithRewriting(file, fields[0].value, ChildRole(role, fields[0].key));
      FieldsCommute(file, fields[1..], skipRef, role);
      assert CompiledFields(fields, role)[1..] == CompiledFields(fields[1..], role);
      var rest := RewrittenFields(file, fields[1..], skipRef);
      if skipRef && fields[0].key == REF {
        assert RewrittenFields(file, fields, skipRef) == rest;
        var done := CompiledFields(fields, role);
        assert RewrittenFields(file, done, skipRef) == RewrittenFields(file, done[1..], skipRef);
      } else {
        assert RewrittenFields(file, fields, skipRef)[1..] == rest;
      }
    }
  }

  lemma {:induction false} ObjectCommutes(file: string, fields: seq<Field>, role: Role)
    ensures Rewritten(file, Compiled(Obj(fields), role)) == Compiled(Rewritten(file, Obj(fields)), role)
    decreases fields, 1
  {
    hide Edited, RewrittenFields;
    RefOfCompiled(fields, role);
    var skip := RefOf(fields).Some?;
    FieldsCommute(file, fields, skip, role);
    EditedRewritten(file, CompiledFields(fields, role), skip, role);
    if skip {
      var ref := Field(REF, Str(NewRef(file, RefOf(fields).value)));
      var kept := RewrittenFields(file, fields, true);
      assert ([ref] + kept)[1..] == kept;
      StringsStay(ref.value, ChildRole(role, REF));
      assert CompiledFields([ref] + kept, role) == [ref] + CompiledFields(kept, role);
      EditedAfterRef(ref, CompiledFields(kept, role), role);
    }
  }

  // The references the pass leaves

  /** The pass opens this surface version: it drops the `const` and overwrites the first `enum`. */
  predicate Opens(role: Role, fields: seq<Field>) {
    role.Surface? && Get(fields, CONST) == Some(V8)
  }

  /** The definitions `value` refers to outside what the pass overwrites. */
  function KeptTargets(file: string, value: Json, role: Role): set<Key>
    decreases value
  {
    match value
    case Arr(items) => KeptOfItems(file, items)
    case Obj(fields) =>
      (match RefOf(fields)
       case None => {}
       case Some(ref) => match SplitRef(file, ref) case None => {} case Some(key) => {key})
      + KeptOfFields(file, fields, RefOf(fields).Some?, role, Opens(role, fields), Opens(role, fields))
    case _ => {}
  }

  function KeptOfItems(file: string, items: seq<Json>): set<Key>
    decreases items
  {
    if items == [] then {} else KeptTargets(file, items[0], Plain) + KeptOfItems(file, items[1..])
  }

  predicate Dropped(f: Field, skipRef: bool, surface: bool, enumOpen: bool) {
    (skipRef && f.key == REF) || (surface && f.key == CONST) || (enumOpen && f.key == ENUM)
  }

  function KeptOfFields(file: string, fields: seq<Field>, skipRef: bool, role: Role, surface: bool,
                        enumOpen: bool): set<Key>
    decreases fields
  {
    if fields == [] then {}
    else
      (if Dropped(fields[0], skipRef, surface, enumOpen) then {}
       else KeptTargets(file, fields[0].value, ChildRole(role, fields[0].key)))
      + KeptOfFields(file, fields[1..], skipRef, role, surface, enumOpen && fields[0].key != ENUM)
  }

  /** What compiled fields refer to outside the same places. */
  function TargetsLeft(file: string, fields: seq<Field>, skipRef: bool, surface: bool, enumOpen: bool): set<Key>
    decreases fields
  {
    if fields == [] then {}
    else
      (if Dropped(fields[0], skipRef, surface, enumOpen) then {} else Targets(file, fields[0].value))
      + TargetsLeft(file, fields[1..], skipRef, surface, enumOpen && fields[0].key != ENUM)
  }

  lemma {:induction false} TargetsAfterPut(file: string, fields: seq<Field>, skipRef: bool, key: string, value: Json)
    requires Targets(file, value) == {} && key != REF
    requires Get(fields, key).Some? ==> Targets(file, Get(fields, key).value) == {}
    ensures TargetsOfFields(file, Put(fields, key, value), skipRef) == TargetsOfFields(file, fields, skipRef)
    decreases |fields|
  {
    hide Targets;
    if fields == [] {
      assert [Field(key, value)][1..] == [];
    } else if fields[0].key == key {
      assert ([Field(key, value)] + fields[1..])[1..] == fields[1..];
    } else {
      TargetsAfterPut(file, fields[1..], skipRef, key, value);
      assert ([fields[0]] + Put(fields[1..], key, value))[1..] == Put(fields[1..], key, value);
    }
  }

  lemma ScalarHasNoTargets(file: string, value: Json)
    ensures IsScalar(value) ==> Targets(file, value) == {}
  {
  }

  lemma BothHasNoTargets(file: string)
    ensures Targets(file, BOTH) == {}
  {
    var items := [Str("aar.mcp-tools.v8"), Str("aar.mcp-tools.v9")];
    assert items[1..] == [Str("aar.mcp-tools.v9")] && items[1..][1..] == [];
    assert TargetsOfItems(file, items[1..]) == {};
  }

  lemma {:induction false} NothingDropped(file: string, fields: seq<Field>, skipRef: bool)
    ensures TargetsLeft(file, fields, skipRef, false, false) == TargetsOfFields(file, fields, skipRef)
    decreases |fields|
  {
    hide Targets;
    if fields != [] {
      NothingDropped(file, fields[1..], skipRef);
    }
  }

  lemma {:induction false} ConstDropped(file: string, fields: seq<Field>, skipRef: bool)
    ensures TargetsOfFields(file, Without(fields, CONST), skipRef) == TargetsLeft(file, fields, skipRef, true, false)
    decreases |fields|
  {
    hide Targets;
    RefNameApart();
    if fields != [] {
      ConstDropped(file, fields[1..], skipRef);
      assert ([fields[0]] + Without(fields[1..], CONST))[1..] == Without(fields[1..], CONST);
    }
  }

  lemma {:induction false} SurfaceDropped(file: string, fields: seq<Field>, skipRef: bool)
    ensures TargetsOfFields(file, Put(Without(fields, CONST), ENUM, BOTH), skipRef) ==
            TargetsLeft(file, fields, skipRef, true, true)
    decreases |fields|
  {
    hide Targets;
    RefNameApart();
    NamesApart();
    BothHasNoTargets(file);
    if fields == [] {
      assert [Field(ENUM, BOTH)][1..] == [];
    } else if fields[0].key == CONST {
      SurfaceDropped(file, fields[1..], skipRef);
    } else {
      var rest := Without(fields[1..], CONST);
      assert ([fields[0]] + rest)[1..] == rest;
      if fields[0].key == ENUM {
        ConstDropped(file, fields[1..], skipRef);
        assert ([Field(ENUM, BOTH)] + rest)[1..] == rest;
      } else {
        SurfaceDropped(file, fields[1..], skipRef);
        assert ([fields[0]] + Put(rest, ENUM, BOTH))[1..] == Put(rest, ENUM, BOTH);
      }
    }
  }

  lemma EditedTargets(file: string, fields: seq<Field>, skipRef: bool, role: Role)
    ensures TargetsOfFields(file, Edited(role, fields), skipRef) ==
            TargetsLeft(file, fields, skipRef, Opens(role, fields), Opens(role, fields))
  {
    hide Targets, TargetsOfFields, TargetsLeft;
    RefNameApart();
    NothingDropped(file, fields, skipRef);
    if role.TimeField? && IsFrozenBound(Get(fields, MAXIMUM)) {
      ScalarHasNoTargets(file, Get(fields, MAXIMUM).value);
      ScalarHasNoTargets(file, UNBOUNDED);
      TargetsAfterPut(file, fields, skipRef, MAXIMUM, UNBOUNDED);
    } else if Opens(role, fields) {
      SurfaceDropped(file, fields, skipRef);
    }
  }

  lemma OpensCompiled(role: Role, fields: seq<Field>)
    ensures Opens(role, CompiledFields(fields, role)) <==> Opens(role, fields)
  {
    hide Compiled, CompiledFields;
    GetCompiled(fields, role, CONST);
    if Get(fields, CONST).Some? {
      StringsStay(Get(fields, CONST).value, ChildRole(role, CONST));
    }
  }

  /** The pass adds no reference, and removes exactly those in what it overwrites. */
  lemma {:induction false} CompiledTargets(file: string, value: Json, role: Role)
    ensures Targets(file, Compiled(value, role)) == KeptTargets(file, value, role)
    decreases value
  {
    match value
    case Arr(items) => CompiledItemTargets(file, items);
    case Obj(fields) => CompiledObjectTargets(file, fields, role);
    case _ =>
  }

  lemma {:induction false} CompiledItemTargets(file: string, items: seq<Json>)
    ensures TargetsOfItems(file, CompiledItems(items)) == KeptOfItems(file, items)
    decreases items
  {
    if items != [] {
      CompiledTargets(file, items[0], Plain);
      CompiledItemTargets(file, items[1..]);
      assert CompiledItems(items)[1..] == CompiledItems(items[1..]);
    }
  }

  lemma {:induction false} CompiledFieldTargets(file: string, fields: seq<Field>, skipRef: bool, role: Role,
                                                surface: bool, enumOpen: bool)
    ensures TargetsLeft(file, CompiledFields(fields, role), skipRef, surface, enumOpen) ==
            KeptOfFields(file, fields, skipRef, role, surface, enumOpen)
    decreases fields, 0
  {
    hide ChildRole;
    if fields != [] {
      CompiledTargets(file, fields[0].value, ChildRole(role, fields[0].key));
      CompiledFieldTargets(file, fields[1..], skipRef, role, surface, enumOpen && fields[0].key != ENUM);
      assert CompiledFields(fields, role)[1..] == CompiledFields(fields[1..], role);
    }
  }

  lemma {:induction false} CompiledObjectTargets(file: string, fields: seq<Field>, role: Role)
    ensures Targets(file, Compiled(Obj(fields), role)) == KeptTargets(file, Obj(fields), role)
    decreases fields, 1
  {
    hide Edited, Opens;
    var skip := RefOf(fields).Some?;
    RefOfCompiled(fields, role);
    OpensCompiled(role, fields);
    CompiledFieldTargets(file, fields, skip, role, Opens(role, fields), Opens(role, fields));
    EditedTargets(file, CompiledFields(fields, role), skip, role);
  }

  lemma {:induction false} KeptAreTargets(file: string, value: Json, role: Role)
    ensures KeptTargets(file, value, role) <= Targets(file, value)
    decreases value
  {
    match value
    case Arr(items) => KeptItemsAreTargets(file, items);
    case Obj(fields) =>
      KeptFieldsAreTargets(file, fields, RefOf(fields).Some?, role, Opens(role, fields), Opens(role, fields));
    case _ =>
  }

  lemma {:induction false} KeptItemsAreTargets(file: string, items: seq<Json>)
    ensures KeptOfItems(file, items) <= TargetsOfItems(file, items)
    decreases items
  {
    if items != [] {
      KeptAreTargets(file, items[0], Plain);
      KeptItemsAreTargets(file, items[1..]);
    }
  }

  lemma {:induction false} KeptFieldsAreTargets(file: string, fields: seq<Field>, skipRef: bool, role: Role,
                                                surface: bool, enumOpen: bool)
    ensures KeptOfFields(file, fields, skipRef, role, surface, enumOpen) <= TargetsOfFields(file, fields, skipRef)
    decreases fields
  {
    hide ChildRole;
    if fields != [] {
      KeptAreTargets(file, fields[0].value, ChildRole(role, fields[0].key));
      KeptFieldsAreTargets(file, fields[1..], skipRef, role, surface, enumOpen && fields[0].key != ENUM);
    }
  }
}

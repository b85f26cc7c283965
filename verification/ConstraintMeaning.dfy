/** What the pass does to the instances a contract accepts: it only lets in more. */
module ConstraintMeaning {
  import opened JsonValues
  import opened SchemaBundler
  import opened ConstraintCompiler
  import opened ConstraintBundling

  const ITEMS: string := "items"
  const PREFIX: string := "prefixItems"
  const ADDITIONAL: string := "additionalProperties"
  const PATTERNS: string := "patternProperties"
  const ALL_OF: string := "allOf"
  const ANY_OF: string := "anyOf"
  const IF: string := "if"
  const THEN: string := "then"
  const ELSE: string := "else"

  /** How every other keyword constrains an instance. It sees its own value, the outline of the schema
      it stands in, the definitions its references lead to, and how deep they may be followed. */
  type Others = (string, Json, seq<Field>, seq<Field>, Json, nat) -> bool

  /** `matches` says whether a pattern matches a name. */
  datatype Reading = Reading(others: Others, matches: (string, string) -> bool)

  // What a keyword sees of its neighbours

  /** The keywords that apply schemas of their own, the more the looser, `properties` aside. */
  predicate Applies(key: string) {
    Branches(key) || key == ITEMS || key == ADDITIONAL || key == THEN || key == ELSE
  }

  /** Those that hold a list of schemas. */
  predicate Branches(key: string) {
    key == ALL_OF || key == ANY_OF || key == PREFIX
  }

  /** The keywords interpreted here; no other one looks at them. */
  predicate Listed(f: Field) {
    || f.key == MAXIMUM || f.key == CONST || f.key == ENUM || Applies(f.key) || (f.key == REF && f.value.Str?)
  }

  function KeysOf(fields: seq<Field>): seq<Json> {
    seq(|fields|, i requires 0 <= i < |fields| => Str(fields[i].key))
  }

  /** Of `properties` the others see the names alone, as `additionalProperties` does. */
  function Outlined(f: Field): seq<Field> {
    if Listed(f) then []
    else if f.key == PROPERTIES then
      if f.value.Obj? then [Field(PROPERTIES, Arr(KeysOf(f.value.fields)))] else []
    else [f]
  }

  function Outline(fields: seq<Field>): seq<Field> {
    if fields == [] then [] else Outlined(fields[0]) + Outline(fields[1..])
  }

  /** How many items `prefixItems` takes from `items`. */
  function Prefixed(fields: seq<Field>): nat {
    match Get(fields, PREFIX)
    case Some(Arr(items)) => |items|
    case _ => 0
  }

  /** What the schema around a keyword tells it: the outline, how many items `prefixItems` takes, and what `if`
      says of the instance, when there is one. */
  datatype Around = Around(outline: seq<Field>, prefixed: nat, condition: Option<bool>)

  /** Whether `additionalProperties` beside this outline is about a property of this name. */
  predicate Additional(r: Reading, outline: seq<Field>, name: string) {
    && (match Get(outline, PROPERTIES)
        case Some(Arr(names)) => Str(name) !in names
        case _ => true)
    && (match Get(outline, PATTERNS)
        case Some(Obj(patterns)) => forall i :: 0 <= i < |patterns| ==> !r.matches(patterns[i].key, name)
        case _ => true)
  }

  // Acceptance, following at most `n` references deep

  predicate Accepts(r: Reading, defs: seq<Field>, schema: Json, x: Json, n: nat)
    decreases n, schema, 1
  {
    match schema
    case Bool(flag) => flag
    case Obj(fields) =>
      var around := Around(Outline(fields), Prefixed(fields), Condition(r, defs, fields, x, n));
      forall i :: 0 <= i < |fields| ==> AcceptsKeyword(r, defs, around, fields[i], x, n)
    case _ => true
  }

  function Condition(r: Reading, defs: seq<Field>, fields: seq<Field>, x: Json, n: nat): Option<bool>
    decreases n, fields, 0
  {
    if Get(fields, IF).None? then None
    else
      GetFinds(fields, IF);
      Some(Accepts(r, defs, Get(fields, IF).value, x, n))
  }

  predicate AcceptsKeyword(r: Reading, defs: seq<Field>, around: Around, f: Field, x: Json, n: nat)
    decreases n, f, 0
  {
    if f.key == MAXIMUM then f.value.Num? && x.Num? ==> x.number <= f.value.number
    else if f.key == CONST then x == f.value
    else if f.key == ENUM then f.value.Arr? ==> x in f.value.items
    else if f.key == PROPERTIES then
      f.value.Obj? && x.Obj? ==>
        forall i :: 0 <= i < |f.value.fields| && Get(x.fields, f.value.fields[i].key).Some? ==>
                      Accepts(r, defs, f.value.fields[i].value, Get(x.fields, f.value.fields[i].key).value, n)
    else if f.key == ADDITIONAL then
      x.Obj? ==> forall i :: 0 <= i < |x.fields| && Additional(r, around.outline, x.fields[i].key) ==>
                               Accepts(r, defs, f.value, x.fields[i].value, n)
    else if f.key == ITEMS then
      x.Arr? ==> forall i :: around.prefixed <= i < |x.items| ==> Accepts(r, defs, f.value, x.items[i], n)
    else if f.key == PREFIX then
      f.value.Arr? && x.Arr? ==>
        forall i :: 0 <= i < |f.value.items| && i < |x.items| ==> Accepts(r, defs, f.value.items[i], x.items[i], n)
    else if f.key == ALL_OF then
      f.value.Arr? ==> forall i :: 0 <= i < |f.value.items| ==> Accepts(r, defs, f.value.items[i], x, n)
    else if f.key == ANY_OF then
      f.value.Arr? ==> exists i :: 0 <= i < |f.value.items| && Accepts(r, defs, f.value.items[i], x, n)
    else if f.key == THEN then around.condition == Some(true) ==> Accepts(r, defs, f.value, x, n)
    else if f.key == ELSE then around.condition == Some(false) ==> Accepts(r, defs, f.value, x, n)
    else if f.key == REF && f.value.Str? then
      Target(defs, f.value.text).Some? && (n > 0 ==> Accepts(r, defs, Target(defs, f.value.text).value, x, n - 1))
    else r.others(f.key, f.value, around.outline, defs, x, n)
  }

  function Target(defs: seq<Field>, ref: string): Option<Json> {
    if LOCAL <= ref then Get(defs, RemovePrefix(ref, LOCAL)) else None
  }

  // The definitions a value leads to

  /** The names of the definitions referred to anywhere in a value. */
  function Names(value: Json): set<string>
    decreases value
  {
    match value
    case Arr(items) => NamesOfItems(items)
    case Obj(fields) => NamesOfFields(fields)
    case _ => {}
  }

  function NamesOfItems(items: seq<Json>): set<string>
    decreases items
  {
    if items == [] then {} else Names(items[0]) + NamesOfItems(items[1..])
  }

  function NamesOfFields(fields: seq<Field>): set<string>
    decreases fields
  {
    if fields == [] then {}
    else
      (if fields[0].key == REF && fields[0].value.Str? then
         if LOCAL <= fields[0].value.text then {RemovePrefix(fields[0].value.text, LOCAL)} else {}
       else Names(fields[0].value))
      + NamesOfFields(fields[1..])
  }

  /** Definitions in `names` refer only to one another. */
  predicate Closed(defs: seq<Field>, names: set<string>) {
    forall name :: name in names && Get(defs, name).Some? ==> Names(Get(defs, name).value) <= names
  }

  predicate AgreeOn(defs: seq<Field>, defs': seq<Field>, names: set<string>) {
    Closed(defs, names) && forall name :: name in names ==> Get(defs, name) == Get(defs', name)
  }

  /** A keyword depends on no definition but those that its value or its neighbours lead to. */
  ghost predicate Local(r: Reading) {
    forall key, value, outline, defs, defs', x, n: nat, names ::
      Names(value) <= names && NamesOfFields(outline) <= names && AgreeOn(defs, defs', names) ==>
        r.others(key, value, outline, defs, x, n) == r.others(key, value, outline, defs', x, n)
  }

  // The condition

  /** What `names` lead to is closed, and the pass leaves all of it alone. */
  predicate Settled(defs: seq<Field>, names: set<string>) {
    Closed(defs, names) &&
    forall name :: name in names && Get(defs, name).Some? ==>
                     Compiled(Get(defs, name).value, ChildRole(Plain, name)) == Get(defs, name).value
  }

  /** The pass changes no definition that the other keywords of a schema lead to. */
  ghost predicate Undisturbed(defs: seq<Field>, fields: seq<Field>) {
    exists names :: NamesOfFields(Outline(fields)) <= names && Settled(defs, names)
  }

  /** Everything the pass would change under this schema, directly or in a definition, is reached through
      keywords that accept more when their schemas do, and through references. */
  ghost predicate Positive(defs: seq<Field>, schema: Json, role: Role)
    decreases schema, 1
  {
    schema.Obj? ==>
      && Undisturbed(defs, schema.fields)
      && forall i :: 0 <= i < |schema.fields| ==> PositiveKeyword(defs, schema.fields[i], role)
  }

  ghost predicate PositiveKeyword(defs: seq<Field>, f: Field, role: Role)
    decreases f, 0
  {
    if f.key == PROPERTIES then
      f.value.Obj? ==> forall i :: 0 <= i < |f.value.fields| ==>
                                     Positive(defs, f.value.fields[i].value,
                                              ChildRole(Properties, f.value.fields[i].key))
    else if Branches(f.key) then
      f.value.Arr? ==> forall i :: 0 <= i < |f.value.items| ==> Positive(defs, f.value.items[i], Plain)
    else if Applies(f.key) then Positive(defs, f.value, ChildRole(role, f.key))
    else Compiled(f.value, ChildRole(role, f.key)) == f.value
  }

  ghost predicate PositiveDefs(defs: seq<Field>) {
    forall i :: 0 <= i < |defs| ==> Positive(defs, defs[i].value, ChildRole(Plain, defs[i].key))
  }

  // Acceptance is local itself

  lemma {:induction false} NamesOfOutline(fields: seq<Field>)
    ensures NamesOfFields(Outline(fields)) <= NamesOfFields(fields)
    decreases |fields|
  {
    if fields != [] {
      NamesOfOutline(fields[1..]);
      var f, rest := fields[0], Outline(fields[1..]);
      if Listed(f) || (f.key == PROPERTIES && !f.value.Obj?) {
        assert Outline(fields) == rest;
      } else if f.key == PROPERTIES {
        KeysHaveNoNames(f.value.fields);
        assert Outline(fields)[1..] == rest;
      } else {
        assert Outline(fields)[1..] == rest;
      }
    }
  }

  lemma {:induction false} KeysHaveNoNames(fields: seq<Field>)
    ensures Names(Arr(KeysOf(fields))) == {}
  {
    TextsHaveNoNames(KeysOf(fields));
  }

  lemma {:induction false} TextsHaveNoNames(items: seq<Json>)
    requires forall i :: 0 <= i < |items| ==> items[i].Str?
    ensures NamesOfItems(items) == {}
    decreases |items|
  {
    if items != [] {
      TextsHaveNoNames(items[1..]);
    }
  }

  lemma {:induction false} NamesOfItem(items: seq<Json>, i: nat)
    requires i < |items|
    ensures Names(items[i]) <= NamesOfItems(items)
    decreases |items|
  {
    if i > 0 {
      NamesOfItem(items[1..], i - 1);
    }
  }

  lemma {:induction false} NamesOfField(fields: seq<Field>, i: nat)
    requires i < |fields|
    ensures NamesOfFields([fields[i]]) <= NamesOfFields(fields)
    decreases |fields|
  {
    hide Names;
    assert [fields[i]][1..] == [];
    if i > 0 {
      NamesOfField(fields[1..], i - 1);
    }
  }

  /** If the other keywords are local, so is acceptance: schemas under them mean the same wherever the
      definitions they lead to are the same. */
  lemma {:induction false} AcceptanceIsLocal(r: Reading, defs: seq<Field>, defs': seq<Field>, names: set<string>,
                                             schema: Json, x: Json, n: nat)
    requires Local(r) && Names(schema) <= names && AgreeOn(defs, defs', names)
    ensures Accepts(r, defs, schema, x, n) <==> Accepts(r, defs', schema, x, n)
    decreases n, schema, 1
  {
    hide Local, AgreeOn, AcceptsKeyword, Names, Condition, Outline, Prefixed;
    if schema.Obj? {
      var fields := schema.fields;
      assert NamesOfFields(fields) <= names by { NamesOfObject(fields); }
      ConditionIsLocal(r, defs, defs', names, fields, x, n);
      NamesOfOutline(fields);
      var around := Around(Outline(fields), Prefixed(fields), Condition(r, defs, fields, x, n));
      forall i | 0 <= i < |fields|
        ensures AcceptsKeyword(r, defs, around, fields[i], x, n) <==> AcceptsKeyword(r, defs', around, fields[i], x, n)
      {
        NamesOfField(fields, i);
        KeywordIsLocal(r, defs, defs', names, around, fields[i], x, n);
      }
    }
  }

  lemma NamesOfObject(fields: seq<Field>)
    ensures Names(Obj(fields)) == NamesOfFields(fields)
  {
  }

  lemma {:induction false} ConditionIsLocal(r: Reading, defs: seq<Field>, defs': seq<Field>, names: set<string>,
                                            fields: seq<Field>, x: Json, n: nat)
    requires Local(r) && AgreeOn(defs, defs', names) && NamesOfFields(fields) <= names
    ensures Condition(r, defs, fields, x, n) == Condition(r, defs', fields, x, n)
    decreases n, fields, 0
  {
    hide Local, AgreeOn, Accepts;
    if Get(fields, IF).Some? {
      GetFinds(fields, IF);
      var i :| 0 <= i < |fields| && fields[i] == Field(IF, Get(fields, IF).value);
      NamesOfField(fields, i);
      KeywordNamesApart();
      ValueNames(fields[i]);
      AcceptanceIsLocal(r, defs, defs', names, fields[i].value, x, n);
    }
  }

  lemma {:induction false} KeywordIsLocal(r: Reading, defs: seq<Field>, defs': seq<Field>, names: set<string>,
                                          around: Around, f: Field, x: Json, n: nat)
    requires Local(r) && AgreeOn(defs, defs', names)
    requires NamesOfFields(around.outline) <= names && NamesOfFields([f]) <= names
    ensures AcceptsKeyword(r, defs, around, f, x, n) <==> AcceptsKeyword(r, defs', around, f, x, n)
    decreases n, f, 0
  {
    hide Local, AgreeOn, Accepts, Additional;
    RefNameApart();
    assert [f][1..] == [];
    if f.key == REF && f.value.Str? {
      TargetsAgree(defs, defs', names, f.value.text);
      if n > 0 && Target(defs, f.value.text).Some? {
        AcceptanceIsLocal(r, defs, defs', names, Target(defs, f.value.text).value, x, n - 1);
      }
    } else {
      assert Names(f.value) <= names;
      if f.key == PROPERTIES {
        PropertiesAreLocal(r, defs, defs', names, around, f, x, n);
      } else if Branches(f.key) {
        BranchesAreLocal(r, defs, defs', names, around, f, x, n);
      } else if Applies(f.key) {
        forall y ensures Accepts(r, defs, f.value, y, n) <==> Accepts(r, defs', f.value, y, n) {
          AcceptanceIsLocal(r, defs, defs', names, f.value, y, n);
        }
      } else {
        OthersAgree(r, f.key, f.value, around.outline, defs, defs', x, n, names);
      }
    }
  }

  lemma {:induction false} PropertiesAreLocal(r: Reading, defs: seq<Field>, defs': seq<Field>, names: set<string>,
                                              around: Around, f: Field, x: Json, n: nat)
    requires Local(r) && AgreeOn(defs, defs', names) && Names(f.value) <= names && f.key == PROPERTIES
    ensures AcceptsKeyword(r, defs, around, f, x, n) <==> AcceptsKeyword(r, defs', around, f, x, n)
    decreases n, f, -1
  {
    hide Local, AgreeOn, Accepts;
    if f.value.Obj? && x.Obj? {
      forall i | 0 <= i < |f.value.fields| && Get(x.fields, f.value.fields[i].key).Some?
        ensures Accepts(r, defs, f.value.fields[i].value, Get(x.fields, f.value.fields[i].key).value, n) <==>
                Accepts(r, defs', f.value.fields[i].value, Get(x.fields, f.value.fields[i].key).value, n)
      {
        NamesOfField(f.value.fields, i);
        ValueNames(f.value.fields[i]);
        AcceptanceIsLocal(r, defs, defs', names, f.value.fields[i].value,
                          Get(x.fields, f.value.fields[i].key).value, n);
      }
    }
  }

  lemma {:induction false} BranchesAreLocal(r: Reading, defs: seq<Field>, defs': seq<Field>, names: set<string>,
                                            around: Around, f: Field, x: Json, n: nat)
    requires Local(r) && AgreeOn(defs, defs', names) && Names(f.value) <= names && Branches(f.key)
    ensures AcceptsKeyword(r, defs, around, f, x, n) <==> AcceptsKeyword(r, defs', around, f, x, n)
    decreases n, f, -1
  {
    hide Local, AgreeOn, Accepts;
    KeywordNamesApart();
    if f.value.Arr? {
      forall i, y | 0 <= i < |f.value.items|
        ensures Accepts(r, defs, f.value.items[i], y, n) <==> Accepts(r, defs', f.value.items[i], y, n)
      {
        NamesOfItem(f.value.items, i);
        AcceptanceIsLocal(r, defs, defs', names, f.value.items[i], y, n);
      }
    }
  }

  lemma ValueNames(f: Field)
    ensures Names(f.value) <= NamesOfFields([f])
  {
    assert [f][1..] == [];
  }

  lemma TargetsAgree(defs: seq<Field>, defs': seq<Field>, names: set<string>, ref: string)
    requires AgreeOn(defs, defs', names) && (LOCAL <= ref ==> RemovePrefix(ref, LOCAL) in names)
    ensures Target(defs, ref) == Target(defs', ref)
    ensures Target(defs, ref).Some? ==> Names(Target(defs, ref).value) <= names
  {
  }

  lemma OthersAgree(r: Reading, key: string, value: Json, outline: seq<Field>, defs: seq<Field>, defs': seq<Field>,
                    x: Json, n: nat, names: set<string>)
    requires Local(r) && Names(value) <= names && NamesOfFields(outline) <= names && AgreeOn(defs, defs', names)
    ensures r.others(key, value, outline, defs, x, n) == r.others(key, value, outline, defs', x, n)
  {
  }

  // What the pass keeps

  lemma {:induction false} OutlinePut(fields: seq<Field>, key: string, value: Json)
    requires key == MAXIMUM || key == CONST || key == ENUM
    ensures Outline(Put(fields, key, value)) == Outline(fields)
    decreases |fields|
  {
    if fields == [] {
      assert [Field(key, value)][1..] == [];
    } else if fields[0].key == key {
      assert ([Field(key, value)] + fields[1..])[1..] == fields[1..];
    } else {
      OutlinePut(fields[1..], key, value);
      assert ([fields[0]] + Put(fields[1..], key, value))[1..] == Put(fields[1..], key, value);
    }
  }

  lemma {:induction false} OutlineWithout(fields: seq<Field>)
    ensures Outline(Without(fields, CONST)) == Outline(fields)
    decreases |fields|
  {
    if fields != [] {
      OutlineWithout(fields[1..]);
      assert ([fields[0]] + Without(fields[1..], CONST))[1..] == Without(fields[1..], CONST);
    }
  }

  lemma KeysCompiled(fields: seq<Field>)
    ensures KeysOf(CompiledFields(fields, Properties)) == KeysOf(fields)
  {
    hide Compiled, CompiledFields;
    FieldsCompiledAt(fields, Properties, 0);
    forall i | 0 <= i < |fields| ensures CompiledFields(fields, Properties)[i].key == fields[i].key {
      FieldsCompiledAt(fields, Properties, i);
    }
  }

  lemma OutlinedCompiled(defs: seq<Field>, f: Field, role: Role)
    requires PositiveKeyword(defs, f, role)
    ensures Outlined(Field(f.key, Compiled(f.value, ChildRole(role, f.key)))) == Outlined(f)
  {
    hide CompiledFields, CompiledItems, KeysOf, Positive;
    NamesApart();
    RefNameApart();
    KeywordNamesApart();
    if f.key == PROPERTIES {
      KindStays(f.value, Properties);
      if f.value.Obj? {
        ObjectOfProperties(f.value.fields);
        KeysCompiled(f.value.fields);
      }
    } else if f.key == REF {
      StringsStay(f.value, ChildRole(role, REF));
    }
  }

  lemma KeywordNamesApart()
    ensures !Applies(PROPERTIES) && !Applies(MAXIMUM) && !Applies(CONST) && !Applies(ENUM) && !Applies(REF)
    ensures !Applies(IF) && IF != REF && IF != PROPERTIES && IF != MAXIMUM && IF != CONST && IF != ENUM
    ensures PREFIX != MAXIMUM && PREFIX != CONST && PREFIX != ENUM
    ensures forall key :: Branches(key) ==> key != ITEMS && key != ADDITIONAL && key != THEN && key != ELSE
  {
    assert |ITEMS| == 5 && |ALL_OF| == 5 && |ANY_OF| == 5 && |PREFIX| == 11 && |ADDITIONAL| == 20 && |IF| == 2;
    assert |THEN| == 4 && |ELSE| == 4 && THEN[0] == 't' && ELSE[0] == 'e' && REF[0] == '$' && |REF| == 4;
    assert ENUM[1] == 'n' && ELSE[1] == 'l' && CONST[0] == 'c' && ITEMS[0] == 'i' && ALL_OF[0] == ANY_OF[0] == 'a';
    assert |PROPERTIES| == 10 && |MAXIMUM| == 7 && |CONST| == 5 && |ENUM| == 4;
  }

  lemma {:induction false} OutlineCompiled(defs: seq<Field>, fields: seq<Field>, role: Role)
    requires forall i :: 0 <= i < |fields| ==> PositiveKeyword(defs, fields[i], role)
    ensures Outline(CompiledFields(fields, role)) == Outline(fields)
    decreases |fields|
  {
    hide PositiveKeyword, Outlined, Compiled;
    if fields != [] {
      OutlinedCompiled(defs, fields[0], role);
      OutlineCompiled(defs, fields[1..], role);
      assert CompiledFields(fields, role)[1..] == CompiledFields(fields[1..], role);
    }
  }

  /** No other keyword sees the edits of its neighbours. */
  lemma OutlineKept(defs: seq<Field>, fields: seq<Field>, role: Role)
    requires forall i :: 0 <= i < |fields| ==> PositiveKeyword(defs, fields[i], role)
    ensures Outline(Edited(role, CompiledFields(fields, role))) == Outline(fields)
  {
    hide PositiveKeyword, Outline, CompiledFields;
    var done := CompiledFields(fields, role);
    OutlineCompiled(defs, fields, role);
    OutlinePut(done, MAXIMUM, UNBOUNDED);
    OutlineWithout(done);
    OutlinePut(Without(done, CONST), ENUM, BOTH);
  }

  lemma PrefixKept(fields: seq<Field>, role: Role)
    ensures Prefixed(Edited(role, CompiledFields(fields, role))) == Prefixed(fields)
  {
    hide Edited, CompiledFields;
    KeywordNamesApart();
    GetEdited(CompiledFields(fields, role), role, PREFIX);
    GetCompiled(fields, role, PREFIX);
    if Get(fields, PREFIX).Some? {
      SameLength(Get(fields, PREFIX).value, ChildRole(role, PREFIX));
    }
  }

  lemma SameLength(value: Json, role: Role)
    ensures Compiled(value, role).Arr? <==> value.Arr?
    ensures value.Arr? ==> |Compiled(value, role).items| == |value.items|
  {
    hide CompiledItems;
    if value.Arr? {
      NthCompiled(value.items, 0);
    }
  }

  /** Settled definitions are the same after the pass. */
  lemma SettledAgree(defs: seq<Field>, names: set<string>)
    requires Settled(defs, names)
    ensures AgreeOn(defs, CompiledFields(defs, Plain), names)
  {
    hide Compiled, CompiledFields, Names;
    forall name | name in names ensures Get(defs, name) == Get(CompiledFields(defs, Plain), name) {
      GetCompiled(defs, Plain, name);
    }
  }

  // The pass loosens

  lemma CompiledTarget(defs: seq<Field>, ref: string)
    ensures Target(CompiledFields(defs, Plain), ref) ==
            match Target(defs, ref)
            case None => None
            case Some(v) => Some(Compiled(v, ChildRole(Plain, RemovePrefix(ref, LOCAL))))
  {
    hide Compiled, CompiledFields;
    if LOCAL <= ref {
      GetCompiled(defs, Plain, RemovePrefix(ref, LOCAL));
    }
  }

  lemma TargetIsPositive(defs: seq<Field>, ref: string)
    requires PositiveDefs(defs) && Target(defs, ref).Some?
    ensures Positive(defs, Target(defs, ref).value, ChildRole(Plain, RemovePrefix(ref, LOCAL)))
  {
    hide Positive;
    GetFinds(defs, RemovePrefix(ref, LOCAL));
    var i :| 0 <= i < |defs| && defs[i] == Field(RemovePrefix(ref, LOCAL), Target(defs, ref).value);
  }

  /** The pass never rejects an instance that was accepted: for every reference depth and whatever the
      other keywords mean, as long as they are local, when all it changes is reached through keywords that
      accept more when their schemas do, and through references. */
  lemma {:induction false} CompilingLoosens(r: Reading, defs: seq<Field>, schema: Json, role: Role, x: Json, n: nat)
    requires Local(r) && PositiveDefs(defs) && Positive(defs, schema, role) && Accepts(r, defs, schema, x, n)
    ensures Accepts(r, CompiledFields(defs, Plain), Compiled(schema, role), x, n)
    decreases n, schema, 1
  {
    hide Local, PositiveDefs, PositiveKeyword, AcceptsKeyword, Undisturbed, Outline, Prefixed, Condition;
    if schema.Obj? {
      var fields := schema.fields;
      var done := CompiledFields(fields, role);
      var whole := Edited(role, done);
      FieldsCompiledAt(fields, role, 0);
      OutlineKept(defs, fields, role);
      PrefixKept(fields, role);
      ConditionKept(r, defs, fields, role, x, n);
      var around := Around(Outline(fields), Prefixed(fields), Condition(r, defs, fields, x, n));
      forall i | 0 <= i < |done| ensures AcceptsKeyword(r, CompiledFields(defs, Plain), around, done[i], x, n) {
        FieldsCompiledAt(fields, role, i);
        KeywordLoosens(r, defs, fields, around, fields[i], role, x, n);
      }
      assert AllAccept(r, CompiledFields(defs, Plain), around, done, x, n);
      EditLoosens(r, defs, around, fields, role, x, n);
    } else {
      hide CompiledItems;
    }
  }

  /** What `if` says of an instance is the same after the pass. */
  lemma ConditionKept(r: Reading, defs: seq<Field>, fields: seq<Field>, role: Role, x: Json, n: nat)
    requires Local(r) && Undisturbed(defs, fields)
    requires forall i :: 0 <= i < |fields| ==> PositiveKeyword(defs, fields[i], role)
    ensures Condition(r, CompiledFields(defs, Plain), Edited(role, CompiledFields(fields, role)), x, n) ==
            Condition(r, defs, fields, x, n)
  {
    hide Local, Edited, CompiledFields, Compiled, Settled, Accepts, Outline;
    KeywordNamesApart();
    GetEdited(CompiledFields(fields, role), role, IF);
    GetCompiled(fields, role, IF);
    if Get(fields, IF).Some? {
      GetFinds(fields, IF);
      var i :| 0 <= i < |fields| && fields[i] == Field(IF, Get(fields, IF).value);
      var names :| NamesOfFields(Outline(fields)) <= names && Settled(defs, names);
      SettledAgree(defs, names);
      InOutline(fields, fields[i]);
      AcceptanceIsLocal(r, defs, CompiledFields(defs, Plain), names, fields[i].value, x, n);
    }
  }

  lemma {:induction false} KeywordLoosens(r: Reading, defs: seq<Field>, fields: seq<Field>, around: Around,
                                          f: Field, role: Role, x: Json, n: nat)
    requires Local(r) && PositiveDefs(defs) && PositiveKeyword(defs, f, role) && f in fields
    requires Undisturbed(defs, fields) && around.outline == Outline(fields)
    requires AcceptsKeyword(r, defs, around, f, x, n)
    ensures AcceptsKeyword(r, CompiledFields(defs, Plain), around,
                           Field(f.key, Compiled(f.value, ChildRole(role, f.key))), x, n)
    decreases n, f, 0
  {
    hide Local, PositiveDefs, Compiled, CompiledFields, Undisturbed, Outline, Accepts, Positive, Additional;
    NamesApart();
    RefNameApart();
    KeywordNamesApart();
    if f.key == PROPERTIES {
      PropertiesLoosen(r, defs, around, f, role, x, n);
    } else if Branches(f.key) {
      BranchesLoosen(r, defs, around, f, role, x, n);
    } else if Applies(f.key) {
      forall y | Accepts(r, defs, f.value, y, n)
        ensures Accepts(r, CompiledFields(defs, Plain), Compiled(f.value, ChildRole(role, f.key)), y, n)
      {
        CompilingLoosens(r, defs, f.value, ChildRole(role, f.key), y, n);
      }
    } else if f.key == REF && f.value.Str? {
      CompiledTarget(defs, f.value.text);
      StringsStay(f.value, ChildRole(role, REF));
      if n > 0 {
        TargetIsPositive(defs, f.value.text);
        CompilingLoosens(r, defs, Target(defs, f.value.text).value,
                         ChildRole(Plain, RemovePrefix(f.value.text, LOCAL)), x, n - 1);
      }
    } else if f.key != MAXIMUM && f.key != CONST && f.key != ENUM {
      OthersKept(r, defs, fields, f, x, n);
    }
  }

  /** A keyword not interpreted here means the same after the pass. */
  lemma OthersKept(r: Reading, defs: seq<Field>, fields: seq<Field>, f: Field, x: Json, n: nat)
    requires Local(r) && Undisturbed(defs, fields) && f in fields && !Listed(f)
    requires f.key != PROPERTIES
    ensures r.others(f.key, f.value, Outline(fields), defs, x, n) ==
            r.others(f.key, f.value, Outline(fields), CompiledFields(defs, Plain), x, n)
  {
    hide Local, Settled, Outlined, Outline, CompiledFields;
    var names :| NamesOfFields(Outline(fields)) <= names && Settled(defs, names);
    SettledAgree(defs, names);
    InOutline(fields, f);
    OthersAgree(r, f.key, f.value, Outline(fields), defs, CompiledFields(defs, Plain), x, n, names);
  }

  lemma {:induction false} InOutline(fields: seq<Field>, f: Field)
    requires f in fields && !Listed(f) && f.key != PROPERTIES
    ensures Names(f.value) <= NamesOfFields(Outline(fields))
    decreases |fields|
  {
    hide Names;
    var rest := Outline(fields[1..]);
    if fields[0] == f {
      assert Outline(fields)[0] == f && Outline(fields)[1..] == rest;
    } else {
      InOutline(fields[1..], f);
      NamesOfSum(Outlined(fields[0]), rest);
    }
  }

  lemma NamesOfSum(a: seq<Field>, b: seq<Field>)
    requires |a| <= 1
    ensures NamesOfFields(b) <= NamesOfFields(a + b)
  {
    if a == [] {
      assert a + b == b;
    } else {
      assert (a + b)[1..] == b;
    }
  }

  lemma {:induction false} PropertiesLoosen(r: Reading, defs: seq<Field>, around: Around, f: Field, role: Role,
                                            x: Json, n: nat)
    requires f.key == PROPERTIES && Local(r) && PositiveDefs(defs) && PositiveKeyword(defs, f, role)
    requires AcceptsKeyword(r, defs, around, f, x, n)
    ensures AcceptsKeyword(r, CompiledFields(defs, Plain), around,
                           Field(f.key, Compiled(f.value, ChildRole(role, f.key))), x, n)
    decreases n, f, -1
  {
    hide Local, PositiveDefs, Compiled, CompiledFields, Positive;
    NamesApart();
    KindStays(f.value, Properties);
    if f.value.Obj? && x.Obj? {
      var fields := f.value.fields;
      ObjectOfProperties(fields);
      FieldsCompiledAt(fields, Properties, 0);
      var done := CompiledFields(fields, Properties);
      forall i | 0 <= i < |done| && Get(x.fields, done[i].key).Some?
        ensures Accepts(r, CompiledFields(defs, Plain), done[i].value, Get(x.fields, done[i].key).value, n)
      {
        FieldsCompiledAt(fields, Properties, i);
        CompilingLoosens(r, defs, fields[i].value, ChildRole(Properties, fields[i].key),
                         Get(x.fields, fields[i].key).value, n);
      }
    }
  }

  lemma {:induction false} BranchesLoosen(r: Reading, defs: seq<Field>, around: Around, f: Field, role: Role,
                                          x: Json, n: nat)
    requires Branches(f.key) && Local(r) && PositiveDefs(defs) && PositiveKeyword(defs, f, role)
    requires AcceptsKeyword(r, defs, around, f, x, n)
    ensures AcceptsKeyword(r, CompiledFields(defs, Plain), around,
                           Field(f.key, Compiled(f.value, ChildRole(role, f.key))), x, n)
    decreases n, f, -1
  {
    hide Local, PositiveDefs, Compiled, CompiledFields, CompiledItems, Accepts, Positive;
    KeywordNamesApart();
    KindStays(f.value, ChildRole(role, f.key));
    if f.value.Arr? {
      var items := f.value.items;
      ArrayCompiled(items, ChildRole(role, f.key));
      NthCompiled(items, 0);
      forall i, y | 0 <= i < |items| && Accepts(r, defs, items[i], y, n)
        ensures Accepts(r, CompiledFields(defs, Plain), CompiledItems(items)[i], y, n)
      {
        NthCompiled(items, i);
        CompilingLoosens(r, defs, items[i], Plain, y, n);
      }
    }
  }

  lemma KindStays(value: Json, role: Role)
    ensures Compiled(value, role).Obj? <==> value.Obj?
    ensures Compiled(value, role).Arr? <==> value.Arr?
  {
  }

  lemma ObjectOfProperties(fields: seq<Field>)
    ensures Compiled(Obj(fields), Properties) == Obj(CompiledFields(fields, Properties))
  {
    hide CompiledFields;
  }

  lemma ArrayCompiled(items: seq<Json>, role: Role)
    ensures Compiled(Arr(items), role) == Arr(CompiledItems(items))
  {
    hide CompiledItems;
  }

  predicate AllAccept(r: Reading, defs: seq<Field>, around: Around, fields: seq<Field>, x: Json, n: nat) {
    forall i :: 0 <= i < |fields| ==> AcceptsKeyword(r, defs, around, fields[i], x, n)
  }

  lemma {:induction false} PutAccepts(r: Reading, defs: seq<Field>, around: Around, fields: seq<Field>,
                                      key: string, value: Json, x: Json, n: nat)
    requires AllAccept(r, defs, around, fields, x, n) &&
             AcceptsKeyword(r, defs, around, Field(key, value), x, n)
    ensures AllAccept(r, defs, around, Put(fields, key, value), x, n)
    decreases |fields|
  {
    hide AcceptsKeyword;
    if fields != [] {
      assert AllAccept(r, defs, around, fields[1..], x, n);
      if fields[0].key != key {
        PutAccepts(r, defs, around, fields[1..], key, value, x, n);
      }
    }
  }

  lemma {:induction false} WithoutAccepts(r: Reading, defs: seq<Field>, around: Around, fields: seq<Field>,
                                          key: string, x: Json, n: nat)
    requires AllAccept(r, defs, around, fields, x, n)
    ensures AllAccept(r, defs, around, Without(fields, key), x, n)
    decreases |fields|
  {
    hide AcceptsKeyword;
    if fields != [] {
      assert AllAccept(r, defs, around, fields[1..], x, n);
      WithoutAccepts(r, defs, around, fields[1..], key, x, n);
    }
  }

  lemma FoundAccepts(r: Reading, defs: seq<Field>, around: Around, fields: seq<Field>, key: string, x: Json,
                     n: nat)
    requires AllAccept(r, defs, around, fields, x, n) && Get(fields, key).Some?
    ensures AcceptsKeyword(r, defs, around, Field(key, Get(fields, key).value), x, n)
  {
    hide AcceptsKeyword;
    GetFinds(fields, key);
  }

  /** The edits of a node accept whatever the unedited node accepts. */
  lemma EditLoosens(r: Reading, defs: seq<Field>, around: Around, fields: seq<Field>, role: Role, x: Json, n: nat)
    requires AllAccept(r, CompiledFields(defs, Plain), around, CompiledFields(fields, role), x, n)
    requires around.outline == Outline(Edited(role, CompiledFields(fields, role)))
    requires around.prefixed == Prefixed(Edited(role, CompiledFields(fields, role)))
    requires around.condition == Condition(r, CompiledFields(defs, Plain), Edited(role, CompiledFields(fields, role)),
                                           x, n)
    ensures Accepts(r, CompiledFields(defs, Plain), Compiled(Obj(fields), role), x, n)
  {
    hide CompiledFields, Outline, Prefixed, Condition;
    var done, now := CompiledFields(fields, role), CompiledFields(defs, Plain);
    NamesApart();
    if role.TimeField? && IsFrozenBound(Get(done, MAXIMUM)) {
      FoundAccepts(r, now, around, done, MAXIMUM, x, n);
      PutAccepts(r, now, around, done, MAXIMUM, UNBOUNDED, x, n);
    } else if role.Surface? && Get(done, CONST) == Some(V8) {
      FoundAccepts(r, now, around, done, CONST, x, n);
      WithoutAccepts(r, now, around, done, CONST, x, n);
      PutAccepts(r, now, around, Without(done, CONST), ENUM, BOTH, x, n);
    }
    assert AllAccept(r, now, around, Edited(role, done), x, n);
  }

  // The condition is needed

  const FREE := Reading((key, value, outline, defs, x, n) => true, (pattern, name) => false)

  /** `not`, and nothing else. */
  const NEGATION :=
    Reading((key, value, outline, defs, x, n: nat) => key == "not" ==> !Accepts(FREE, defs, value, x, n),
            (pattern, name) => false)

  lemma NegationIsLocal()
    ensures Local(NEGATION)
  {
    hide Accepts, AgreeOn, Names, NamesOfFields;
    assert Local(FREE);
    forall key: string, value, outline, defs, defs', x, n: nat, names
      | Names(value) <= names && NamesOfFields(outline) <= names && AgreeOn(defs, defs', names)
      ensures NEGATION.others(key, value, outline, defs, x, n) == NEGATION.others(key, value, outline, defs', x, n)
    {
      AcceptanceIsLocal(FREE, defs, defs', names, value, x, n);
    }
  }

  function Allowance(bound: Json): Json {
    Obj([Field(PROPERTIES, Obj([Field("total_wall_time_ms", Obj([Field(MAXIMUM, bound)]))]))])
  }

  const TO_T: Json := Obj([Field(REF, Str(LOCAL + "T"))])
  const NEGATED: Json := Obj([Field("not", TO_T)])
  const USE: Json := Obj([Field("total_wall_time_ms", Num(70_000))])

  lemma CompiledOne(f: Field, role: Role)
    ensures CompiledFields([f], role) == [Field(f.key, Compiled(f.value, ChildRole(role, f.key)))]
  {
    hide Compiled;
    assert [f][1..] == [];
  }

  lemma AllowanceCompiled()
    ensures Compiled(Allowance(Num(60_000)), Plain) == Allowance(UNBOUNDED)
  {
    hide Compiled, CompiledFields;
    NamesApart();
    RefNameApart();
    var bound := Field(MAXIMUM, Num(60_000));
    var field := Field("total_wall_time_ms", Obj([bound]));
    CompiledOne(bound, TimeField);
    NumIsFixed(ChildRole(TimeField, MAXIMUM));
    ScalarCompiled(Num(60_000), ChildRole(TimeField, MAXIMUM));
    assert Get([bound], MAXIMUM) == Some(Num(60_000)) && [bound][1..] == [];
    assert Put([bound], MAXIMUM, UNBOUNDED) == [Field(MAXIMUM, UNBOUNDED)];
    ObjectCompiledIn([bound], TimeField);
    CompiledOne(field, Properties);
    assert field.key != PROPERTIES by { assert |PROPERTIES| == 10; }
    ObjectCompiledIn([field], Properties);
    CompiledOne(Field(PROPERTIES, Obj([field])), Plain);
    ObjectCompiledIn([Field(PROPERTIES, Obj([field]))], Plain);
  }

  lemma ScalarCompiled(value: Json, role: Role)
    requires value.Num?
    ensures Compiled(value, role) == value
  {
  }

  lemma ObjectCompiledIn(fields: seq<Field>, role: Role)
    ensures Compiled(Obj(fields), role) == Obj(Edited(role, CompiledFields(fields, role)))
  {
  }

  function Alone(r: Reading, defs: seq<Field>, f: Field, x: Json, n: nat): Around {
    Around(Outline([f]), Prefixed([f]), Condition(r, defs, [f], x, n))
  }

  lemma AcceptsOne(r: Reading, defs: seq<Field>, f: Field, x: Json, n: nat)
    ensures Accepts(r, defs, Obj([f]), x, n) <==> AcceptsKeyword(r, defs, Alone(r, defs, f, x, n), f, x, n)
  {
    hide AcceptsKeyword, Outline, Prefixed, Condition;
    assert [f][0] == f;
  }

  /** The allowance accepts the use exactly when the bound does. */
  lemma AllowanceBounds(defs: seq<Field>, bound: Json, n: nat)
    requires bound.Num?
    ensures Accepts(FREE, defs, Allowance(bound), USE, n) <==> 70_000 <= bound.number
  {
    hide Alone, Accepts;
    NamesApart();
    var limit := Field(MAXIMUM, bound);
    var field := Field("total_wall_time_ms", Obj([limit]));
    assert Get(USE.fields, "total_wall_time_ms") == Some(Num(70_000));
    AcceptsOne(FREE, defs, limit, Num(70_000), n);
    assert [field][0] == field;
    AcceptsOne(FREE, defs, Field(PROPERTIES, Obj([field])), USE, n);
  }

  lemma NegatedReference(defs: seq<Field>, bound: Json, n: nat)
    requires defs == [Field("T", Allowance(bound))] && bound.Num?
    ensures Accepts(NEGATION, defs, NEGATED, USE, n + 1) <==> bound.number < 70_000
  {
    hide Alone, Accepts;
    NamesApart();
    RefNameApart();
    KeywordNamesApart();
    NotApart();
    assert (LOCAL + "T")[|LOCAL|..] == "T" && LOCAL <= LOCAL + "T";
    assert Target(defs, LOCAL + "T") == Some(Allowance(bound));
    AllowanceBounds(defs, bound, n);
    AcceptsOne(FREE, defs, Field(REF, Str(LOCAL + "T")), USE, n + 1);
    AcceptsOne(NEGATION, defs, Field("not", TO_T), USE, n + 1);
  }

  lemma NotApart()
    ensures !Listed(Field("not", TO_T)) && "not" != PROPERTIES
  {
    KeywordNamesApart();
    assert |"not"| == 3 && |PROPERTIES| == 10 && |REF| == 4 && |ITEMS| == 5 && |ALL_OF| == 5 && |ANY_OF| == 5;
    assert |PREFIX| == 11 && |ADDITIONAL| == 20 && |THEN| == 4 && |ELSE| == 4 && |ENUM| == 4 && |CONST| == 5;
  }

  /** Under `not` a reference to an edited definition tightens the schema: the use was accepted and is
      no more, although `not` is local and every definition is positive. */
  lemma NegatedReferenceTightens(n: nat)
    ensures var defs := [Field("T", Allowance(Num(60_000)))];
      && Local(NEGATION) && PositiveDefs(defs)
      && Accepts(NEGATION, defs, NEGATED, USE, n + 1)
      && !Accepts(NEGATION, CompiledFields(defs, Plain), Compiled(NEGATED, Plain), USE, n + 1)
      && !Positive(defs, NEGATED, Plain)
  {
    hide Compiled, CompiledFields, Accepts, Local, Positive;
    var defs := [Field("T", Allowance(Num(60_000)))];
    NegationIsLocal();
    AllowanceIsPositive(defs);
    NegatedReference(defs, Num(60_000), n);
    AllowanceCompiled();
    CompiledOne(defs[0], Plain);
    assert |PROPERTIES| == 10;
    NegatedReference(CompiledFields(defs, Plain), UNBOUNDED, n);
    NegatedCompiled();
    if Positive(defs, NEGATED, Plain) {
      CompilingLoosens(NEGATION, defs, NEGATED, Plain, USE, n + 1);
    }
  }

  lemma NegatedCompiled()
    ensures Compiled(NEGATED, Plain) == NEGATED
  {
    hide Compiled, CompiledFields;
    assert |PROPERTIES| == 10 && |REF| == 4;
    var ref := Field(REF, Str(LOCAL + "T"));
    CompiledOne(ref, Plain);
    StringsStay(ref.value, ChildRole(Plain, REF));
    ObjectCompiledIn([ref], Plain);
    CompiledOne(Field("not", TO_T), Plain);
    ObjectCompiledIn([Field("not", TO_T)], Plain);
  }

  lemma AllowanceIsPositive(defs: seq<Field>)
    requires defs == [Field("T", Allowance(Num(60_000)))]
    ensures PositiveDefs(defs)
  {
    NamesApart();
    KeywordNamesApart();
    assert |PROPERTIES| == 10;
    assert Settled(defs, {});
    var bound := [Field(MAXIMUM, Num(60_000))];
    var fields := [Field("total_wall_time_ms", Obj(bound))];
    var top := [Field(PROPERTIES, Obj(fields))];
    assert bound[1..] == [] && top[1..] == [] && fields[1..] == [];
    assert Outline(bound) == [];
    assert Undisturbed(defs, bound);
    assert PositiveKeyword(defs, bound[0], TimeField);
    assert Positive(defs, Obj(bound), TimeField);
    KeysHaveNoNames(fields);
    assert Outline(top) == [Field(PROPERTIES, Arr(KeysOf(fields)))];
    assert Outline(top)[1..] == [];
    assert NamesOfFields(Outline(top)) == {};
    assert Undisturbed(defs, top);
    assert PositiveKeyword(defs, top[0], Plain);
    assert Positive(defs, Obj(top), Plain);
  }
}

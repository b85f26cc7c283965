/** Bundling compiled contracts, and compiling a bundle: exactly when the two give the same. */
module ConstraintBundles {
  import opened JsonValues
  import opened KeyOrder
  import opened SchemaBundler
  import opened ConstraintCompiler
  import opened ConstraintPass
  import opened ConstraintBundling

  // Taken for the keyword

  /** A property the pass would edit. */
  predicate IsEditedProperty(f: Field) {
    f.value.Obj? &&
    ((IsTimeField(f.key) && IsFrozenBound(Get(f.value.fields, MAXIMUM))) ||
     (f.key == SURFACE && Get(f.value.fields, CONST) == Some(V8)))
  }

  predicate HasEdited(fields: seq<Field>) {
    fields != [] && (IsEditedProperty(fields[0]) || HasEdited(fields[1..]))
  }

  /** The value has something to edit, were it a list of properties. */
  predicate LooksLikeProperties(value: Json) {
    value.Obj? && HasEdited(value.fields)
  }

  lemma {:induction false} HasEditedAt(fields: seq<Field>) returns (i: nat)
    requires HasEdited(fields)
    ensures i < |fields| && IsEditedProperty(fields[i])
  {
    if IsEditedProperty(fields[0]) {
      i := 0;
    } else {
      i := HasEditedAt(fields[1..]);
      i := i + 1;
    }
  }

  /** A property reads the same in both roles unless it is edited. */
  lemma RolesPart(f: Field)
    ensures Compiled(f.value, ChildRole(Properties, f.key)) == Compiled(f.value, ChildRole(Plain, f.key)) <==>
            !IsEditedProperty(f)
  {
    hide CompiledFields, CompiledItems, Without, Put;
    TimeNames(f.key);
    NamesApart();
    if f.value.Obj? && f.key != PROPERTIES && (IsTimeField(f.key) || f.key == SURFACE) {
      var fields := f.value.fields;
      var done := CompiledFields(fields, Plain);
      var role := ChildRole(Properties, f.key);
      RolesAlike(fields, role);
      GetCompiled(fields, Plain, MAXIMUM);
      GetCompiled(fields, Plain, CONST);
      if Get(fields, MAXIMUM).Some? {
        ScalarsStay(Get(fields, MAXIMUM).value, ChildRole(Plain, MAXIMUM));
      }
      if Get(fields, CONST).Some? {
        ScalarsStay(Get(fields, CONST).value, ChildRole(Plain, CONST));
      }
      GetPut(done, MAXIMUM, UNBOUNDED, MAXIMUM);
      GetPut(Without(done, CONST), ENUM, BOTH, CONST);
      GetWithout(done, CONST, CONST);
    }
  }

  lemma {:induction false} FieldsInBothRoles(fields: seq<Field>)
    ensures CompiledFields(fields, Properties) == CompiledFields(fields, Plain) <==> !HasEdited(fields)
    decreases |fields|
  {
    hide Compiled, IsEditedProperty, ChildRole;
    if fields != [] {
      FieldsInBothRoles(fields[1..]);
      RolesPart(fields[0]);
      var p, q := CompiledFields(fields, Properties), CompiledFields(fields, Plain);
      assert p[0] == Field(fields[0].key, Compiled(fields[0].value, ChildRole(Properties, fields[0].key)));
      assert q[0] == Field(fields[0].key, Compiled(fields[0].value, ChildRole(Plain, fields[0].key)));
      assert p[1..] == CompiledFields(fields[1..], Properties) && q[1..] == CompiledFields(fields[1..], Plain);
    }
  }

  /** Compiling in the keyword's role changes nothing more exactly when there is nothing to edit. */
  lemma SameInBothRoles(value: Json)
    ensures Compiled(value, Properties) == Compiled(value, Plain) <==> !LooksLikeProperties(value)
  {
    hide CompiledFields, CompiledItems, HasEdited;
    if value.Obj? {
      FieldsInBothRoles(value.fields);
      ObjectCompiled(value.fields, Properties);
      ObjectCompiled(value.fields, Plain);
    }
  }

  lemma GetOfObject(file: string, fields: seq<Field>, key: string)
    requires key != REF
    ensures Get(RewrittenObject(file, fields), key) ==
            match Get(fields, key) case None => None case Some(v) => Some(Rewritten(file, v))
  {
    hide Rewritten, RewrittenFields;
    GetRewrittenField(file, fields, RefOf(fields).Some?, key);
    if RefOf(fields).Some? {
      var rest := RewrittenFields(file, fields, true);
      assert RewrittenObject(file, fields)[1..] == rest;
    }
  }

  lemma EditedWhenRewritten(file: string, f: Field)
    ensures IsEditedProperty(Field(f.key, Rewritten(file, f.value))) <==> IsEditedProperty(f)
  {
    hide RewrittenObject, RewrittenItems;
    RefNameApart();
    if f.value.Obj? {
      GetOfObject(file, f.value.fields, MAXIMUM);
      GetOfObject(file, f.value.fields, CONST);
      if Get(f.value.fields, MAXIMUM).Some? {
        RewrittenScalar(file, Get(f.value.fields, MAXIMUM).value);
      }
      if Get(f.value.fields, CONST).Some? {
        RewrittenScalar(file, Get(f.value.fields, CONST).value);
      }
    }
  }

  lemma RefIsNotEdited(f: Field)
    requires f.key == REF
    ensures !IsEditedProperty(f)
  {
    assert |REF| == 4 && REF[0] == '$';
  }

  lemma {:induction false} HasEditedWhenRewritten(file: string, fields: seq<Field>, skipRef: bool)
    ensures HasEdited(RewrittenFields(file, fields, skipRef)) <==> HasEdited(fields)
    decreases |fields|
  {
    hide Rewritten, IsEditedProperty;
    if fields != [] {
      HasEditedWhenRewritten(file, fields[1..], skipRef);
      var rest := RewrittenFields(file, fields[1..], skipRef);
      if skipRef && fields[0].key == REF {
        RefIsNotEdited(fields[0]);
        assert RewrittenFields(file, fields, skipRef) == rest;
      } else {
        EditedWhenRewritten(file, fields[0]);
        var first := Field(fields[0].key, Rewritten(file, fields[0].value));
        assert RewrittenFields(file, fields, skipRef) == [first] + rest && ([first] + rest)[1..] == rest;
      }
    }
  }

  lemma ObjectWhenRewritten(file: string, fields: seq<Field>)
    ensures HasEdited(RewrittenObject(file, fields)) <==> HasEdited(fields)
  {
    hide Rewritten, IsEditedProperty, RewrittenFields;
    var skip := RefOf(fields).Some?;
    HasEditedWhenRewritten(file, fields, skip);
    if skip {
      var ref := Field(REF, Str(NewRef(file, RefOf(fields).value)));
      RefIsNotEdited(ref);
      assert RewrittenObject(file, fields)[1..] == RewrittenFields(file, fields, true);
    }
  }

  lemma LooksWhenRewritten(file: string, value: Json)
    ensures LooksLikeProperties(Rewritten(file, value)) <==> LooksLikeProperties(value)
  {
    hide HasEdited, RewrittenObject, RewrittenItems;
    if value.Obj? {
      ObjectWhenRewritten(file, value.fields);
    }
  }

  // Whole contracts

  function CompiledContracts(c: Contracts): Contracts {
    map file | file in c :: CompiledFields(c[file], Plain)
  }

  /** The role a definition is compiled in: its name is taken for a keyword if it is one. */
  function RoleOf(k: Key): Role {
    ChildRole(Plain, k.name)
  }

  lemma RolesOfKeys(k: Key)
    ensures RoleOf(k) == if k.name == PROPERTIES then Properties else Plain
  {
  }

  lemma CompiledDefinition(c: Contracts, k: Key)
    ensures Definition(CompiledContracts(c), k) ==
            match Definition(c, k) case None => None case Some(v) => Some(Compiled(v, RoleOf(k)))
  {
    hide CompiledFields;
    RefNameApart();
    if k.file in c {
      GetCompiled(c[k.file], Plain, DEFS);
      var defs := Get(c[k.file], DEFS);
      if defs.Some? && defs.value.Obj? {
        GetCompiled(defs.value.fields, Plain, k.name);
      }
    }
  }

  /** The definitions one step from `k` that the pass leaves. */
  function KeptSuccessors(c: Contracts, k: Key): set<Key> {
    match Definition(c, k)
    case None => {}
    case Some(value) => KeptTargets(k.file, value, RoleOf(k))
  }

  lemma CompiledSuccessors(c: Contracts, k: Key)
    ensures Successors(CompiledContracts(c), k) == KeptSuccessors(c, k)
    ensures KeptSuccessors(c, k) <= Successors(c, k)
  {
    hide KeptTargets, Targets, Compiled, CompiledContracts;
    CompiledDefinition(c, k);
    if Definition(c, k).Some? {
      CompiledTargets(k.file, Definition(c, k).value, RoleOf(k));
      KeptAreTargets(k.file, Definition(c, k).value, RoleOf(k));
    }
  }

  ghost predicate KeptPath(c: Contracts, path: seq<Key>) {
    |path| > 0 && forall i :: 0 <= i < |path| - 1 ==> path[i + 1] in KeptSuccessors(c, path[i])
  }

  /** `to` is reached from `starts` through references the pass leaves alone. */
  ghost predicate StillReached(c: Contracts, starts: set<Key>, to: Key) {
    exists path :: KeptPath(c, path) && path[0] in starts && path[|path| - 1] == to
  }

  lemma PathsKept(c: Contracts, path: seq<Key>)
    ensures KeptPath(c, path) <==> Path(CompiledContracts(c), path)
    ensures KeptPath(c, path) ==> Path(c, path)
  {
    hide Successors, KeptSuccessors, CompiledContracts;
    forall i | 0 <= i < |path| - 1
      ensures Successors(CompiledContracts(c), path[i]) == KeptSuccessors(c, path[i]) <= Successors(c, path[i])
    {
      CompiledSuccessors(c, path[i]);
    }
  }

  /** What is reached in the compiled contracts. */
  lemma ReachedCompiled(c: Contracts, starts: set<Key>, k: Key)
    ensures ReachedFrom(CompiledContracts(c), starts, k) <==> StillReached(c, starts, k)
    ensures StillReached(c, starts, k) ==> ReachedFrom(c, starts, k)
  {
    hide Successors, KeptSuccessors, CompiledContracts;
    var d := CompiledContracts(c);
    if StillReached(c, starts, k) {
      var path :| KeptPath(c, path) && path[0] in starts && path[|path| - 1] == k;
      PathsKept(c, path);
      assert Reaches(d, path[0], k) && Reaches(c, path[0], k);
    }
    if ReachedFrom(d, starts, k) {
      var start :| start in starts && Reaches(d, start, k);
      var path :| Path(d, path) && path[0] == start && path[|path| - 1] == k;
      PathsKept(c, path);
    }
  }

  // Whole bundles

  lemma AliasIsNoKeyword(c: Contracts, k: Key)
    requires Known(c, k)
    ensures Alias(k) != PROPERTIES
  {
    RefNameApart();
    assert forall i :: 0 <= i < |PROPERTIES| ==> PROPERTIES[i] != '_';
    var prefix := Prefix(k.file).value;
    assert Alias(k)[|prefix|] == '_';
  }

  /** A definition's entry in the bundle of the compiled contracts. */
  lemma CompiledEntry(c: Contracts, k: Key)
    requires Known(c, k)
    ensures Known(CompiledContracts(c), k)
    ensures Entry(CompiledContracts(c), k) == Field(Alias(k), Compiled(Entry(c, k).value, RoleOf(k)))
    ensures ChildRole(Plain, Alias(k)) == Plain
  {
    hide Compiled, CompiledContracts, Alias, Rewritten, RoleOf;
    CompiledDefinition(c, k);
    CompilingCommutesWithRewriting(k.file, Definition(c, k).value, RoleOf(k));
    AliasIsNoKeyword(c, k);
  }

  /** No definition is taken for the keyword `properties` with anything to edit in it. */
  predicate Mistaken(c: Contracts, k: Key) {
    k.name == PROPERTIES && Definition(c, k).Some? && LooksLikeProperties(Definition(c, k).value)
  }

  /** The entry is the compiled entry unless the definition is mistaken. */
  lemma EntryCompiled(c: Contracts, k: Key)
    requires Known(c, k)
    ensures Known(CompiledContracts(c), k)
    ensures Entry(CompiledContracts(c), k) == Field(Alias(k), Compiled(Entry(c, k).value, Plain)) <==> !Mistaken(c, k)
  {
    hide Compiled, CompiledContracts, Alias, Rewritten, LooksLikeProperties;
    CompiledEntry(c, k);
    RolesOfKeys(k);
    SameInBothRoles(Entry(c, k).value);
    LooksWhenRewritten(k.file, Definition(c, k).value);
  }

  /** The compiled list of a bundle, entry by entry. */
  lemma ListedCompiled(c: Contracts, keys: set<Key>, defs: seq<Field>)
    requires Lists(c, keys, defs)
    ensures var done := CompiledFields(defs, Plain);
      && Sorted(done)
      && forall f :: f in done <==> exists k :: k in keys && f == Field(Alias(k), Compiled(Entry(c, k).value, Plain))
  {
    hide Compiled, Alias, Rewritten, CompiledFields, ChildRole;
    var done := CompiledFields(defs, Plain);
    FieldsCompiledAt(defs, Plain, 0);
    forall i | 0 <= i < |defs| ensures done[i].key == defs[i].key {
      FieldsCompiledAt(defs, Plain, i);
    }
    forall f | f in done ensures exists k :: k in keys && f == Field(Alias(k), Compiled(Entry(c, k).value, Plain)) {
      var i :| 0 <= i < |done| && done[i] == f;
      FieldsCompiledAt(defs, Plain, i);
      assert defs[i] in defs;
      var k :| k in keys && defs[i] == Entry(c, k);
      AliasIsNoKeyword(c, k);
      PlainAlias(c, k);
    }
    forall k | k in keys ensures Field(Alias(k), Compiled(Entry(c, k).value, Plain)) in done {
      assert Entry(c, k) in defs;
      var i :| 0 <= i < |defs| && defs[i] == Entry(c, k);
      FieldsCompiledAt(defs, Plain, i);
      PlainAlias(c, k);
      assert done[i] == Field(Alias(k), Compiled(Entry(c, k).value, Plain));
    }
  }

  lemma PlainAlias(c: Contracts, k: Key)
    requires Known(c, k)
    ensures ChildRole(Plain, Alias(k)) == Plain
  {
    AliasIsNoKeyword(c, k);
  }

  /** The compiled list is the list of the compiled contracts exactly when no listed definition is
      mistaken. */
  lemma CompiledLists(c: Contracts, keys: set<Key>, defs: seq<Field>)
    requires Lists(c, keys, defs)
    ensures Lists(CompiledContracts(c), keys, CompiledFields(defs, Plain)) <==>
            forall k :: k in keys ==> !Mistaken(c, k)
  {
    hide Lists, Mistaken, CompiledContracts, CompiledFields;
    if forall k :: k in keys ==> !Mistaken(c, k) {
      ListsUnmistaken(c, keys, defs);
    } else if Lists(CompiledContracts(c), keys, CompiledFields(defs, Plain)) {
      var k :| k in keys && Mistaken(c, k);
      ListedIsUnmistaken(c, keys, defs, k);
    }
  }

  lemma ListsUnmistaken(c: Contracts, keys: set<Key>, defs: seq<Field>)
    requires Lists(c, keys, defs) && forall k :: k in keys ==> !Mistaken(c, k)
    ensures Lists(CompiledContracts(c), keys, CompiledFields(defs, Plain))
  {
    hide Compiled, CompiledContracts, CompiledFields, Alias, Rewritten, Mistaken, ChildRole, Entry, Sorted;
    var d, done := CompiledContracts(c), CompiledFields(defs, Plain);
    ListedCompiled(c, keys, defs);
    forall k | k in keys
      ensures Known(d, k) && Entry(d, k) == Field(Alias(k), Compiled(Entry(c, k).value, Plain))
    {
      EntryCompiled(c, k);
    }
  }

  lemma ListedIsUnmistaken(c: Contracts, keys: set<Key>, defs: seq<Field>, k: Key)
    requires Lists(c, keys, defs) && Lists(CompiledContracts(c), keys, CompiledFields(defs, Plain)) && k in keys
    ensures !Mistaken(c, k)
  {
    hide Compiled, CompiledContracts, CompiledFields, Alias, Rewritten, Mistaken, ChildRole, Sorted;
    var d, done := CompiledContracts(c), CompiledFields(defs, Plain);
    ListedCompiled(c, keys, defs);
    EntryCompiled(c, k);
    var listed, compiled := Entry(d, k), Field(Alias(k), Compiled(Entry(c, k).value, Plain));
    assert listed in done && compiled in done;
    SameKeySameField(done, listed, compiled);
  }

  lemma SameKeySameField(fields: seq<Field>, f: Field, g: Field)
    requires Sorted(fields) && f in fields && g in fields && f.key == g.key
    ensures f == g
  {
    SortedIsDistinct(fields);
    var i :| 0 <= i < |fields| && fields[i] == f;
    var j :| 0 <= j < |fields| && fields[j] == g;
  }

  // Root documents

  lemma {:induction false} PutKeeps(fields: seq<Field>, key: string, value: Json, i: nat)
    requires i < |fields| && fields[i].key != key
    ensures i < |Put(fields, key, value)| && Put(fields, key, value)[i] == fields[i]
    decreases |fields|
  {
    if fields[0].key != key && i > 0 {
      PutKeeps(fields[1..], key, value, i - 1);
    }
  }

  lemma AssembledKeeps(fields: seq<Field>, defs: seq<Field>, i: nat)
    requires i < |fields| && fields[i].key != DEFS && fields[i].key != SCHEMA
    ensures i < |Assembled(fields, defs)| && Assembled(fields, defs)[i] == fields[i]
  {
    hide Put;
    if defs != [] {
      PutKeeps(fields, DEFS, Obj(defs), i);
    }
    PutKeeps(if defs == [] then fields else Put(fields, DEFS, Obj(defs)), SCHEMA, DIALECT, i);
  }

  lemma EditedIsNoRootField(f: Field)
    requires IsEditedProperty(f)
    ensures f.key != DEFS && f.key != SCHEMA
  {
    assert DEFS[0] == '$' && SCHEMA[0] == '$';
  }

  /** The two roles make the same document exactly when nothing in it is taken for a property. */
  lemma AssembledInBothRoles(fields: seq<Field>, defs: seq<Field>)
    ensures Assembled(CompiledFields(fields, Properties), defs) == Assembled(CompiledFields(fields, Plain), defs) <==>
            !HasEdited(fields)
  {
    hide Assembled, Compiled, CompiledFields, ChildRole, IsEditedProperty;
    FieldsInBothRoles(fields);
    if HasEdited(fields) {
      var i := HasEditedAt(fields);
      EditedIsNoRootField(fields[i]);
      RolesPart(fields[i]);
      FieldsCompiledAt(fields, Properties, i);
      FieldsCompiledAt(fields, Plain, i);
      AssembledKeeps(CompiledFields(fields, Properties), defs, i);
      AssembledKeeps(CompiledFields(fields, Plain), defs, i);
    }
  }

  lemma CompiledAssembled(fields: seq<Field>, defs: seq<Field>)
    ensures CompiledFields(Assembled(fields, defs), Plain) ==
            Assembled(CompiledFields(fields, Plain), CompiledFields(defs, Plain))
  {
    hide Compiled, CompiledFields;
    RefNameApart();
    FieldsCompiledAt(defs, Plain, 0);
    ObjectCompiled(defs, Plain);
    StringsStay(DIALECT, ChildRole(Plain, SCHEMA));
    PutCompiled(fields, Plain, DEFS, Obj(defs));
    PutCompiled(if defs == [] then fields else Put(fields, DEFS, Obj(defs)), Plain, SCHEMA, DIALECT);
  }

  lemma RewrittenObjectIs(file: string, fields: seq<Field>)
    ensures Rewritten(file, Obj(fields)) == Obj(RewrittenObject(file, fields))
  {
    hide RewrittenObject;
  }

  /** The root of the compiled contracts, rewritten. */
  lemma CompiledRoot(c: Contracts, root: Key)
    requires Definition(c, root).Some? && Definition(c, root).value.Obj?
    ensures var d := CompiledContracts(c);
      && Definition(d, root).Some? && Definition(d, root).value.Obj?
      && RewrittenObject(root.file, Definition(d, root).value.fields) ==
         CompiledFields(RewrittenObject(root.file, Definition(c, root).value.fields), RoleOf(root))
  {
    hide Compiled, CompiledFields, CompiledContracts, RewrittenObject, Rewritten;
    var fields := Definition(c, root).value.fields;
    RolesOfKeys(root);
    CompiledDefinition(c, root);
    ObjectCompiled(fields, RoleOf(root));
    CompilingCommutesWithRewriting(root.file, Obj(fields), RoleOf(root));
    RewrittenObjectIs(root.file, fields);
    RewrittenObjectIs(root.file, CompiledFields(fields, RoleOf(root)));
    ObjectCompiled(RewrittenObject(root.file, fields), RoleOf(root));
  }

  /** The compiled bundle is assembled from the compiled root exactly when the root is not mistaken. */
  lemma RootCompiled(c: Contracts, root: Key, defs: seq<Field>)
    requires Definition(c, root).Some? && Definition(c, root).value.Obj?
    ensures var d := CompiledContracts(c);
      var bundle := Obj(Assembled(RewrittenObject(root.file, Definition(c, root).value.fields), defs));
      && Definition(d, root).Some? && Definition(d, root).value.Obj?
      && (Compiled(bundle, Plain) ==
          Obj(Assembled(RewrittenObject(root.file, Definition(d, root).value.fields), CompiledFields(defs, Plain)))
          <==> !Mistaken(c, root))
  {
    hide Compiled, CompiledFields, CompiledContracts, RewrittenObject, Assembled, HasEdited;
    var fields := RewrittenObject(root.file, Definition(c, root).value.fields);
    RolesOfKeys(root);
    CompiledRoot(c, root);
    ObjectCompiled(Assembled(fields, defs), Plain);
    CompiledAssembled(fields, defs);
    AssembledInBothRoles(fields, CompiledFields(defs, Plain));
    ObjectWhenRewritten(root.file, Definition(c, root).value.fields);
  }

  // The two orders

  /** Neither the root nor a definition reached is taken for the keyword. */
  predicate NoneMistaken(c: Contracts, root: Key, keys: set<Key>) {
    !Mistaken(c, root) && forall k :: k in keys ==> !Mistaken(c, k)
  }

  /** Every definition reached is reached through references the pass leaves alone. */
  ghost predicate NoneLost(c: Contracts, root: Key, keys: set<Key>) {
    forall k :: k in keys ==> StillReached(c, KeptSuccessors(c, root), k)
  }

  lemma ReachedKeys(c: Contracts, root: Key, keys: set<Key>)
    requires forall k :: k in keys <==> ReachedFrom(c, Successors(c, root), k)
    ensures var d := CompiledContracts(c);
      (forall k :: k in keys <==> ReachedFrom(d, Successors(d, root), k)) <==> NoneLost(c, root, keys)
  {
    hide Successors, KeptSuccessors, ReachedFrom, StillReached, CompiledContracts;
    CompiledSuccessors(c, root);
    forall k
      ensures ReachedFrom(CompiledContracts(c), KeptSuccessors(c, root), k) <==>
              StillReached(c, KeptSuccessors(c, root), k)
      ensures StillReached(c, KeptSuccessors(c, root), k) ==> k in keys
    {
      ReachedCompiled(c, KeptSuccessors(c, root), k);
      if StillReached(c, KeptSuccessors(c, root), k) {
        MoreStarts(c, KeptSuccessors(c, root), Successors(c, root), k);
      }
    }
  }

  lemma MoreStarts(c: Contracts, fewer: set<Key>, more: set<Key>, k: Key)
    requires fewer <= more && ReachedFrom(c, fewer, k)
    ensures ReachedFrom(c, more, k)
  {
    var start :| start in fewer && Reaches(c, start, k);
  }

  /** Compiling a bundle gives the bundle of the compiled contracts, with the same definitions, if and
      only if no definition in it is taken for the keyword `properties` and every definition in it is
      reached through references outside what the pass overwrites. */
  lemma BundlingCommutes(c: Contracts, root: Key, keys: set<Key>, defs: seq<Field>, bundle: Json)
    requires IsBundle(c, root, keys, defs, bundle)
    ensures IsBundle(CompiledContracts(c), root, keys, CompiledFields(defs, Plain), Compiled(bundle, Plain)) <==>
            NoneMistaken(c, root, keys) && NoneLost(c, root, keys)
  {
    hide Compiled, CompiledContracts, CompiledFields, Lists, Assembled, ReachedFrom, RewrittenObject, Mistaken,
      NoneLost, Successors;
    CompiledRoot(c, root);
    ReachedKeys(c, root, keys);
    CompiledLists(c, keys, defs);
    RootCompiled(c, root, defs);
  }

  lemma DefsOfAssembled(fields: seq<Field>, defs: seq<Field>)
    ensures Get(Assembled(fields, defs), DEFS) == if defs != [] then Some(Obj(defs)) else Get(fields, DEFS)
  {
    assert DEFS != SCHEMA;
    GetPut(fields, DEFS, Obj(defs), DEFS);
    GetPut(if defs == [] then fields else Put(fields, DEFS, Obj(defs)), SCHEMA, DIALECT, DEFS);
  }

  /** Lists of the same definitions under two contracts list the same keys. */
  lemma ListedKeys(c: Contracts, keys: set<Key>, defs: seq<Field>, d: Contracts, keys': set<Key>)
    requires Lists(c, keys, defs) && d == CompiledContracts(c) && Lists(d, keys', CompiledFields(defs, Plain))
    ensures keys' == keys
  {
    hide Compiled, CompiledContracts, CompiledFields, Rewritten, Sorted, Alias;
    var done := CompiledFields(defs, Plain);
    ListedCompiled(c, keys, defs);
    forall k | k in keys ensures k in keys' {
      assert Field(Alias(k), Compiled(Entry(c, k).value, Plain)) in done;
      var other :| other in keys' && Field(Alias(k), Compiled(Entry(c, k).value, Plain)) == Entry(d, other);
      AliasIsInjective(k, other);
    }
    forall k | k in keys' ensures k in keys {
      assert Entry(d, k) in done;
      var other :| other in keys && Entry(d, k) == Field(Alias(other), Compiled(Entry(c, other).value, Plain));
      AliasIsInjective(k, other);
    }
  }

  /** For a root without definitions of its own the two bundles are equal if and only if the same
      condition holds. */
  lemma BundlesAgree(c: Contracts, root: Key, keys: set<Key>, defs: seq<Field>, bundle: Json,
                     keys': set<Key>, defs': seq<Field>, bundle': Json)
    requires IsBundle(c, root, keys, defs, bundle) && Get(Definition(c, root).value.fields, DEFS).None?
    requires IsBundle(CompiledContracts(c), root, keys', defs', bundle')
    ensures bundle' == Compiled(bundle, Plain) <==> NoneMistaken(c, root, keys) && NoneLost(c, root, keys)
  {
    hide Compiled, CompiledContracts, CompiledFields, Lists, Assembled, ReachedFrom, RewrittenObject, NoneMistaken,
      NoneLost, Successors, Alias;
    var d := CompiledContracts(c);
    BundlingCommutes(c, root, keys, defs, bundle);
    if NoneMistaken(c, root, keys) && NoneLost(c, root, keys) {
      BundleIsUnique(d, root, keys, CompiledFields(defs, Plain), Compiled(bundle, Plain), keys', defs', bundle');
    } else if bundle' == Compiled(bundle, Plain) {
      SameDefs(c, root, defs, bundle, defs', bundle');
      ListedKeys(c, keys, defs, d, keys');
    }
  }

  lemma SameDefs(c: Contracts, root: Key, defs: seq<Field>, bundle: Json, defs': seq<Field>, bundle': Json)
    requires Definition(c, root).Some? && Definition(c, root).value.Obj?
    requires Get(Definition(c, root).value.fields, DEFS).None?
    requires bundle == Obj(Assembled(RewrittenObject(root.file, Definition(c, root).value.fields), defs))
    requires Definition(CompiledContracts(c), root).Some? && Definition(CompiledContracts(c), root).value.Obj?
    requires bundle' ==
             Obj(Assembled(RewrittenObject(root.file, Definition(CompiledContracts(c), root).value.fields), defs'))
    requires bundle' == Compiled(bundle, Plain)
    ensures defs' == CompiledFields(defs, Plain)
  {
    hide Compiled, CompiledContracts, CompiledFields, Assembled, RewrittenObject;
    RefNameApart();
    var fields := RewrittenObject(root.file, Definition(c, root).value.fields);
    GetOfObject(root.file, Definition(c, root).value.fields, DEFS);
    CompiledRoot(c, root);
    GetCompiled(fields, RoleOf(root), DEFS);
    GetCompiled(fields, Plain, DEFS);
    ObjectCompiled(Assembled(fields, defs), Plain);
    CompiledAssembled(fields, defs);
    DefsOfAssembled(CompiledFields(fields, Plain), CompiledFields(defs, Plain));
    DefsOfAssembled(CompiledFields(fields, RoleOf(root)), defs');
  }

  // Where they differ

  lemma {:induction false} ListExists(c: Contracts, keys: set<Key>) returns (defs: seq<Field>)
    requires forall k :: k in keys ==> Known(c, k)
    ensures Lists(c, keys, defs)
    decreases |keys|
  {
    if keys == {} {
      defs := [];
    } else {
      var k :| k in keys;
      var rest := ListExists(c, keys - {k});
      ListsOneMore(c, keys - {k}, rest, k);
      assert keys - {k} + {k} == keys;
      defs := Insert(Entry(c, k), rest);
    }
  }

  lemma BundleExists(c: Contracts, root: Key, keys: set<Key>) returns (defs: seq<Field>, bundle: Json)
    requires Definition(c, root).Some? && Definition(c, root).value.Obj?
    requires forall k :: k in keys <==> ReachedFrom(c, Successors(c, root), k)
    requires forall k :: k in keys ==> Known(c, k)
    ensures IsBundle(c, root, keys, defs, bundle)
  {
    defs := ListExists(c, keys);
    bundle := Obj(Assembled(RewrittenObject(root.file, Definition(c, root).value.fields), defs));
  }

  const FILE := "aar-caller-work-v1.schema.json"
  const ROOT: Key := Key(FILE, "root")

  /** One file with a root and one more definition. */
  function Pair(root: seq<Field>, name: string, definition: seq<Field>): Contracts {
    map[FILE := [Field(DEFS, Obj([Field("root", Obj(root)), Field(name, Obj(definition))]))]]
  }

  lemma OneField(f: Field, key: string)
    ensures Get([f], key) == if f.key == key then Some(f.value) else None
  {
    assert [f][1..] == [];
  }

  lemma TwoFields(f: Field, g: Field, key: string)
    ensures Get([f, g], key) == if f.key == key then Some(f.value) else if g.key == key then Some(g.value) else None
  {
    assert [f, g][1..] == [g];
    OneField(g, key);
  }

  lemma PairDefines(root: seq<Field>, name: string, definition: seq<Field>)
    requires name != "root"
    ensures var c := Pair(root, name, definition); var k := Key(FILE, name);
      && Definition(c, ROOT) == Some(Obj(root)) && Definition(c, k) == Some(Obj(definition)) && Known(c, k)
      && Known(CompiledContracts(c), k)
  {
    var c, k := Pair(root, name, definition), Key(FILE, name);
    hide Compiled, CompiledFields, CompiledContracts;
    var first, second := Field("root", Obj(root)), Field(name, Obj(definition));
    OneField(Field(DEFS, Obj([first, second])), DEFS);
    TwoFields(first, second, "root");
    TwoFields(first, second, name);
    CompiledDefinition(c, k);
  }

  /** A definition that leads nowhere reaches itself alone. */
  lemma ReachesAlone(c: Contracts, k: Key)
    requires Successors(c, k) == {}
    ensures forall other :: other in {k} <==> ReachedFrom(c, {k}, other)
  {
    hide Successors;
    forall other ensures other == k <==> ReachedFrom(c, {k}, other) {
      ReachesItself(c, k);
      if ReachedFrom(c, {k}, other) {
        var path :| Path(c, path) && path[0] == k && path[|path| - 1] == other;
        ClosedHoldsPath(c, {k}, path);
      }
    }
  }

  lemma SplitsLocal(file: string, name: string)
    ensures SplitRef(file, LOCAL + name) == Some(Key(file, name))
  {
    assert LOCAL <= LOCAL + name && (LOCAL + name)[|LOCAL|..] == name;
  }

  const BOUND: Json := Obj([Field(MAXIMUM, Num(60_000))])
  const ALLOWANCE: seq<Field> := [Field("total_wall_time_ms", BOUND)]
  const TO_KEYWORD: seq<Field> := [Field(REF, Str(LOCAL + PROPERTIES))]

  lemma KeywordTargets()
    ensures Targets(FILE, Obj(TO_KEYWORD)) == {Key(FILE, PROPERTIES)} == KeptTargets(FILE, Obj(TO_KEYWORD), Plain)
    ensures Targets(FILE, Obj(ALLOWANCE)) == {}
    ensures LooksLikeProperties(Obj(ALLOWANCE))
  {
    RefNameApart();
    RefersTo(PROPERTIES);
    var bound := Field(MAXIMUM, Num(60_000));
    assert "total_wall_time_ms" != REF by { assert |REF| == 4; }
    HoldsOne(bound);
    HoldsOne(ALLOWANCE[0]);
    OneField(bound, MAXIMUM);
    assert IsEditedProperty(ALLOWANCE[0]);
  }

  lemma RefersTo(name: string)
    ensures var fields := [Field(REF, Str(LOCAL + name))];
      Targets(FILE, Obj(fields)) == {Key(FILE, name)} == KeptTargets(FILE, Obj(fields), Plain)
  {
    var ref := Field(REF, Str(LOCAL + name));
    SplitsLocal(FILE, name);
    OneField(ref, REF);
    assert [ref][1..] == [];
    assert TargetsOfFields(FILE, [ref], true) == {} + {};
    assert KeptOfFields(FILE, [ref], true, Plain, false, false) == {} + {};
  }

  /** An object with one field, which is no reference, refers to what the field does. */
  lemma HoldsOne(f: Field)
    requires f.key != REF
    ensures Targets(FILE, Obj([f])) == Targets(FILE, f.value)
    ensures forall role: Role :: !role.Surface? ==>
              KeptTargets(FILE, Obj([f]), role) == KeptTargets(FILE, f.value, ChildRole(role, f.key))
  {
    OneField(f, REF);
    assert [f][1..] == [];
    assert TargetsOfFields(FILE, [f], false) == Targets(FILE, f.value) + {};
    forall role: Role ensures KeptOfFields(FILE, [f], false, role, false, false) ==
                        KeptTargets(FILE, f.value, ChildRole(role, f.key)) {
      assert KeptOfFields(FILE, [f][1..], false, role, false, false) == {};
    }
  }

  /** A definition called `properties` that holds a frozen time allowance is taken for a list of
      properties: bundling the compiled contracts is not compiling the bundle. */
  lemma KeywordNameIsMistaken()
    returns (keys: set<Key>, defs: seq<Field>, bundle: Json, defs': seq<Field>, bundle': Json)
    ensures var c := Pair(TO_KEYWORD, PROPERTIES, ALLOWANCE);
      && IsBundle(c, ROOT, keys, defs, bundle) && IsBundle(CompiledContracts(c), ROOT, keys, defs', bundle')
      && bundle' != Compiled(bundle, Plain)
  {
    hide Targets, KeptTargets, CompiledContracts, IsBundle, Compiled, LooksLikeProperties, Definition, Pair, NoneLost;
    var c, k := Pair(TO_KEYWORD, PROPERTIES, ALLOWANCE), Key(FILE, PROPERTIES);
    var d := CompiledContracts(c);
    keys := {k};
    assert |PROPERTIES| == 10;
    PairDefines(TO_KEYWORD, PROPERTIES, ALLOWANCE);
    KeywordTargets();
    RolesOfKeys(ROOT);
    CompiledSuccessors(c, ROOT);
    CompiledSuccessors(c, k);
    ReachesAlone(c, k);
    ReachesAlone(d, k);
    CompiledRoot(c, ROOT);
    defs, bundle := BundleExists(c, ROOT, keys);
    defs', bundle' := BundleExists(d, ROOT, keys);
    assert DEFS != REF && Mistaken(c, k);
    BundlesAgree(c, ROOT, keys, defs, bundle, keys, defs', bundle');
  }

  const TO_T: seq<Field> := [Field(REF, Str(LOCAL + "T"))]
  const VERSION: seq<Field> := [Field(CONST, V8), Field(ENUM, Arr([Obj(TO_T)]))]
  const VERSIONED: seq<Field> := [Field(PROPERTIES, Obj([Field(SURFACE, Obj(VERSION))]))]

  /** The version refers to T, but only in what the pass overwrites. */
  lemma VersionHolds()
    ensures Targets(FILE, Obj(VERSION)) == {Key(FILE, "T")}
    ensures KeptTargets(FILE, Obj(VERSION), Surface) == {}
  {
    RefNameApart();
    NamesApart();
    RefersTo("T");
    var first, second := Field(CONST, V8), Field(ENUM, Arr([Obj(TO_T)]));
    TwoFields(first, second, REF);
    TwoFields(first, second, CONST);
    assert VERSION[1..] == [second] && [second][1..] == [] && [Obj(TO_T)][1..] == [];
    assert TargetsOfItems(FILE, [Obj(TO_T)]) == {Key(FILE, "T")} + {};
    assert TargetsOfFields(FILE, [second], false) == {Key(FILE, "T")} + {};
    assert TargetsOfFields(FILE, VERSION, false) == {} + {Key(FILE, "T")};
    assert KeptOfFields(FILE, [second], false, Surface, true, true) == {};
    assert KeptOfFields(FILE, VERSION, false, Surface, true, true) == {};
  }

  lemma VersionTargets()
    ensures Targets(FILE, Obj(VERSIONED)) == {Key(FILE, "T")}
    ensures KeptTargets(FILE, Obj(VERSIONED), Plain) == {}
    ensures Targets(FILE, Obj([])) == {}
  {
    hide Targets, KeptTargets;
    RefNameApart();
    TimeNames(SURFACE);
    VersionHolds();
    assert SURFACE != REF && SURFACE != PROPERTIES by { assert |SURFACE| == 15 && |REF| == 4 && |PROPERTIES| == 10; }
    HoldsOne(Field(SURFACE, Obj(VERSION)));
    HoldsOne(VERSIONED[0]);
    EmptyHoldsNothing();
  }

  lemma EmptyHoldsNothing()
    ensures Targets(FILE, Obj([])) == {}
  {
  }

  /** An opened surface version whose `enum` held the only reference to a definition: the bundle of the
      compiled contracts has lost the definition that the compiled bundle holds. */
  lemma OverwrittenReferenceIsLost()
    returns (keys: set<Key>, defs: seq<Field>, bundle: Json, defs': seq<Field>, bundle': Json)
    ensures var c := Pair(VERSIONED, "T", []);
      && IsBundle(c, ROOT, keys, defs, bundle) && IsBundle(CompiledContracts(c), ROOT, {}, defs', bundle')
      && bundle' != Compiled(bundle, Plain)
  {
    hide Targets, KeptTargets, CompiledContracts, IsBundle, Compiled, LooksLikeProperties, Definition, Pair,
      NoneMistaken;
    var c, k := Pair(VERSIONED, "T", []), Key(FILE, "T");
    var d := CompiledContracts(c);
    keys := {k};
    PairDefines(VERSIONED, "T", []);
    VersionTargets();
    RolesOfKeys(ROOT);
    CompiledSuccessors(c, ROOT);
    ReachesAlone(c, k);
    CompiledRoot(c, ROOT);
    assert forall other :: other in {} <==> ReachedFrom(d, {}, other);
    defs, bundle := BundleExists(c, ROOT, keys);
    defs', bundle' := BundleExists(d, ROOT, {});
    RefNameApart();
    assert VERSIONED[1..] == [];
    assert !StillReached(c, KeptSuccessors(c, ROOT), k);
    BundlesAgree(c, ROOT, keys, defs, bundle, {}, defs', bundle');
  }
}

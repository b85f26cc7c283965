/** What a schema means: the trees met by following its references, `n` deep for every `n`, cyclic ones included. */
module BundleMeaning {
  import opened JsonValues
  import opened KeyOrder
  import opened SchemaBundler

  datatype Tree =
    | Leaf(value: Json)
    | List(items: seq<Tree>)
    | Dict(fields: seq<Branch>)
    | Link(target: Tree, siblings: seq<Branch>)  // an object with a reference, and its other fields
    | Cut(siblings: seq<Branch>)                 // a reference beyond the depth asked for
    | Dangling                                   // a reference to nothing

  datatype Branch = Branch(key: string, tree: Tree)

  /** Where references are looked up: in the contract documents, or in the `$defs` of a bundle. */
  datatype Scope = Source(contracts: Contracts) | Bundled(defs: seq<Field>)

  function Resolve(scope: Scope, file: string, ref: string): Option<(string, Json)> {
    match scope
    case Source(c) =>
      (match SplitRef(file, ref)
       case None => None
       case Some(key) =>
         match Definition(c, key)
         case None => None
         case Some(value) => Some((key.file, value)))
    case Bundled(defs) =>
      if LOCAL <= ref then
        match Get(defs, RemovePrefix(ref, LOCAL))
        case None => None
        case Some(value) => Some(("", value))
      else None
  }

  function Unfold(scope: Scope, file: string, value: Json, n: nat): Tree
    decreases n, value
  {
    match value
    case Arr(items) => List(UnfoldItems(scope, file, items, n))
    case Obj(fields) =>
      (match RefOf(fields)
       case None => Dict(UnfoldFields(scope, file, fields, false, n))
       case Some(ref) =>
         match Resolve(scope, file, ref)
         case None => Dangling
         case Some((targetFile, target)) =>
           var siblings := UnfoldFields(scope, file, fields, true, n);
           if n == 0 then Cut(siblings) else Link(Unfold(scope, targetFile, target, n - 1), siblings))
    case _ => Leaf(value)
  }

  function UnfoldItems(scope: Scope, file: string, items: seq<Json>, n: nat): seq<Tree>
    decreases n, items
  {
    if items == [] then [] else [Unfold(scope, file, items[0], n)] + UnfoldItems(scope, file, items[1..], n)
  }

  function UnfoldFields(scope: Scope, file: string, fields: seq<Field>, skipRef: bool, n: nat): seq<Branch>
    decreases n, fields
  {
    if fields == [] then []
    else (if skipRef && fields[0].key == REF then []
          else [Branch(fields[0].key, Unfold(scope, file, fields[0].value, n))])
         + UnfoldFields(scope, file, fields[1..], skipRef, n)
  }

  predicate Complete(tree: Tree) {
    match tree
    case Leaf(_) => true
    case List(items) => forall t :: t in items ==> Complete(t)
    case Dict(fields) => forall b :: b in fields ==> Complete(b.tree)
    case Link(target, siblings) => Complete(target) && forall b :: b in siblings ==> Complete(b.tree)
    case Cut(siblings) => forall b :: b in siblings ==> Complete(b.tree)
    case Dangling => false
  }

  /** `defs` serves every definition in `keys`, and those refer only to one another. */
  ghost predicate Serves(c: Contracts, keys: set<Key>, defs: seq<Field>) {
    forall k {:trigger Served(c, keys, defs, k)} :: k in keys ==> Served(c, keys, defs, k)
  }

  ghost predicate Served(c: Contracts, keys: set<Key>, defs: seq<Field>, key: Key) {
    && Known(c, key)
    && Clean(c, key.file, Definition(c, key).value)
    && Successors(c, key) <= keys
    && Get(defs, Alias(key)) == Some(Rewritten(key.file, Definition(c, key).value))
  }

  lemma {:induction false} GetRewritten(file: string, fields: seq<Field>, key: string)
    ensures Get(RewrittenFields(file, fields, false), key) ==
            match Get(fields, key) case None => None case Some(v) => Some(Rewritten(file, v))
  {
    if fields != [] {
      var rest := RewrittenFields(file, fields[1..], false);
      assert RewrittenFields(file, fields, false) == [Field(fields[0].key, Rewritten(file, fields[0].value))] + rest;
      GetRewritten(file, fields[1..], key);
    }
  }

  lemma UnfoldSiblings(scope: Scope, file: string, ref: Json, kept: seq<Field>, n: nat)
    ensures UnfoldFields(scope, file, [Field(REF, ref)] + kept, true, n) == UnfoldFields(scope, file, kept, true, n)
  {
    assert ([Field(REF, ref)] + kept)[1..] == kept;
  }

  lemma FirstRef(ref: string, kept: seq<Field>)
    ensures RefOf([Field(REF, Str(ref))] + kept) == Some(ref)
  {
  }

  /** A rewritten reference finds the rewritten definition. */
  lemma RewrittenRef(defs: seq<Field>, file: string, fields: seq<Field>, ref: string, alias: string, target: Json,
                     n: nat)
    requires RefOf(fields) == Some(ref) && NewRef(file, ref) == LOCAL + alias
    requires Get(defs, alias) == Some(target)
    ensures n == 0 ==> Unfold(Bundled(defs), "", Rewritten(file, Obj(fields)), n) ==
                       Cut(UnfoldFields(Bundled(defs), "", RewrittenFields(file, fields, true), true, n))
    ensures n > 0 ==> Unfold(Bundled(defs), "", Rewritten(file, Obj(fields)), n) ==
                      Link(Unfold(Bundled(defs), "", target, n - 1),
                           UnfoldFields(Bundled(defs), "", RewrittenFields(file, fields, true), true, n))
  {
    var kept := RewrittenFields(file, fields, true);
    var entry := [Field(REF, Str(LOCAL + alias))] + kept;
    assert Rewritten(file, Obj(fields)) == Obj(entry);
    FirstRef(LOCAL + alias, kept);
    UnfoldSiblings(Bundled(defs), "", Str(LOCAL + alias), kept, n);
  }

  /** Rewriting references never changes what a value unfolds to. */
  lemma {:induction false} RewritingPreservesMeaning(c: Contracts, keys: set<Key>, defs: seq<Field>, file: string,
                                                     value: Json, n: nat)
    requires Serves(c, keys, defs)
    requires Clean(c, file, value) && Targets(file, value) <= keys
    ensures Unfold(Bundled(defs), "", Rewritten(file, value), n) == Unfold(Source(c), file, value, n)
    ensures Complete(Unfold(Source(c), file, value, n))
    decreases n, value
  {
    match value
    case Arr(items) =>
      RewritingItems(c, keys, defs, file, items, n);
    case Obj(fields) =>
      match RefOf(fields) {
        case None =>
          GetRewritten(file, fields, REF);
          assert RefOf(RewrittenObject(file, fields)).None?;
          RewritingFields(c, keys, defs, file, fields, false, n);
        case Some(ref) =>
          var key := SplitRef(file, ref).value;
          assert Served(c, keys, defs, key);
          RewritingLink(c, keys, defs, file, fields, ref, key, Definition(c, key).value, n);
      }
    case _ =>
  }

  lemma {:induction false} RewritingLink(c: Contracts, keys: set<Key>, defs: seq<Field>, file: string,
                                         fields: seq<Field>, ref: string, key: Key, target: Json, n: nat)
    requires Serves(c, keys, defs) && RefOf(fields) == Some(ref)
    requires CleanFields(c, file, fields, true) && TargetsOfFields(file, fields, true) <= keys
    requires Resolve(Source(c), file, ref) == Some((key.file, target)) && NewRef(file, ref) == LOCAL + Alias(key)
    requires Clean(c, key.file, target) && Targets(key.file, target) <= keys
    requires Get(defs, Alias(key)) == Some(Rewritten(key.file, target))
    ensures Unfold(Bundled(defs), "", Rewritten(file, Obj(fields)), n) == Unfold(Source(c), file, Obj(fields), n)
    ensures Complete(Unfold(Source(c), file, Obj(fields), n))
    decreases n, fields, 1
  {
    hide *;
    RewritingFields(c, keys, defs, file, fields, true, n);
    if n > 0 {
      RewritingPreservesMeaning(c, keys, defs, key.file, target, n - 1);
    }
    SameLink(c, defs, file, fields, ref, key, target, n);
  }

  /** Equal targets and equal siblings make equal links. */
  lemma SameLink(c: Contracts, defs: seq<Field>, file: string, fields: seq<Field>, ref: string, key: Key,
                 target: Json, n: nat)
    requires RefOf(fields) == Some(ref)
    requires Resolve(Source(c), file, ref) == Some((key.file, target)) && NewRef(file, ref) == LOCAL + Alias(key)
    requires Get(defs, Alias(key)) == Some(Rewritten(key.file, target))
    requires UnfoldFields(Bundled(defs), "", RewrittenFields(file, fields, true), true, n) ==
             UnfoldFields(Source(c), file, fields, true, n)
    requires forall b :: b in UnfoldFields(Source(c), file, fields, true, n) ==> Complete(b.tree)
    requires n > 0 ==>
               Unfold(Bundled(defs), "", Rewritten(key.file, target), n - 1) ==
               Unfold(Source(c), key.file, target, n - 1)
    requires n > 0 ==> Complete(Unfold(Source(c), key.file, target, n - 1))
    ensures Unfold(Bundled(defs), "", Rewritten(file, Obj(fields)), n) == Unfold(Source(c), file, Obj(fields), n)
    ensures Complete(Unfold(Source(c), file, Obj(fields), n))
  {
    RewrittenRef(defs, file, fields, ref, Alias(key), Rewritten(key.file, target), n);
    var siblings := UnfoldFields(Source(c), file, fields, true, n);
    if n == 0 {
      assert Complete(Cut(siblings));
    } else {
      assert Complete(Link(Unfold(Source(c), key.file, target, n - 1), siblings));
    }
  }

  lemma {:induction false} RewritingItems(c: Contracts, keys: set<Key>, defs: seq<Field>, file: string,
                                          items: seq<Json>, n: nat)
    requires Serves(c, keys, defs)
    requires CleanItems(c, file, items) && TargetsOfItems(file, items) <= keys
    ensures UnfoldItems(Bundled(defs), "", RewrittenItems(file, items), n) == UnfoldItems(Source(c), file, items, n)
    ensures forall t :: t in UnfoldItems(Source(c), file, items, n) ==> Complete(t)
    decreases n, items
  {
    if items != [] {
      RewritingPreservesMeaning(c, keys, defs, file, items[0], n);
      RewritingItems(c, keys, defs, file, items[1..], n);
      assert RewrittenItems(file, items)[1..] == RewrittenItems(file, items[1..]);
    }
  }

  lemma {:induction false} RewritingFields(c: Contracts, keys: set<Key>, defs: seq<Field>, file: string,
                                           fields: seq<Field>, skipRef: bool, n: nat)
    requires Serves(c, keys, defs)
    requires CleanFields(c, file, fields, skipRef) && TargetsOfFields(file, fields, skipRef) <= keys
    ensures UnfoldFields(Bundled(defs), "", RewrittenFields(file, fields, skipRef), skipRef, n) ==
            UnfoldFields(Source(c), file, fields, skipRef, n)
    ensures forall b :: b in UnfoldFields(Source(c), file, fields, skipRef, n) ==> Complete(b.tree)
    decreases n, fields, 0
  {
    if fields != [] {
      RewritingFields(c, keys, defs, file, fields[1..], skipRef, n);
      if skipRef && fields[0].key == REF {
        assert RewrittenFields(file, fields, skipRef) == RewrittenFields(file, fields[1..], skipRef);
      } else {
        RewritingPreservesMeaning(c, keys, defs, file, fields[0].value, n);
        assert RewrittenFields(file, fields, skipRef)[1..] == RewrittenFields(file, fields[1..], skipRef);
      }
    }
  }

  // The bundle as a document

  predicate WrittenAtRoot(key: string) {
    key == DEFS || key == SCHEMA
  }

  /** An object without the two fields bundling writes at the root. */
  function Body(fields: seq<Field>): seq<Field> {
    if fields == [] then []
    else if WrittenAtRoot(fields[0].key) then Body(fields[1..])
    else [fields[0]] + Body(fields[1..])
  }

  function DefsOf(bundle: Json): seq<Field> {
    if bundle.Obj? then Definitions(bundle.fields) else []
  }

  lemma {:induction false} BodyOfPut(fields: seq<Field>, key: string, value: Json)
    requires WrittenAtRoot(key)
    ensures Body(Put(fields, key, value)) == Body(fields)
  {
    if fields != [] && fields[0].key != key {
      BodyOfPut(fields[1..], key, value);
    }
  }

  lemma {:induction false} BodyKeepsRef(fields: seq<Field>)
    ensures Get(Body(fields), REF) == Get(fields, REF)
  {
    if fields != [] {
      BodyKeepsRef(fields[1..]);
    }
  }

  lemma {:induction false} BodyOfRewritten(file: string, fields: seq<Field>, skipRef: bool)
    ensures Body(RewrittenFields(file, fields, skipRef)) == RewrittenFields(file, Body(fields), skipRef)
  {
    if fields != [] {
      BodyOfRewritten(file, fields[1..], skipRef);
      var rest := RewrittenFields(file, fields[1..], skipRef);
      if skipRef && fields[0].key == REF {
        assert RewrittenFields(file, fields, skipRef) == rest;
      } else {
        assert RewrittenFields(file, fields, skipRef) ==
               [Field(fields[0].key, Rewritten(file, fields[0].value))] + rest;
      }
      if !WrittenAtRoot(fields[0].key) {
        assert Body(fields) == [fields[0]] + Body(fields[1..]);
      }
    }
  }

  lemma {:induction false} BodyIsClean(c: Contracts, file: string, fields: seq<Field>, skipRef: bool)
    requires CleanFields(c, file, fields, skipRef)
    ensures CleanFields(c, file, Body(fields), skipRef)
    ensures TargetsOfFields(file, Body(fields), skipRef) <= TargetsOfFields(file, fields, skipRef)
  {
    if fields != [] {
      BodyIsClean(c, file, fields[1..], skipRef);
      if !WrittenAtRoot(fields[0].key) {
        assert Body(fields) == [fields[0]] + Body(fields[1..]);
        assert Body(fields)[1..] == Body(fields[1..]);
      }
    }
  }

  /** The body of a rewritten object is the rewriting of its body. */
  lemma BodyOfBundle(c: Contracts, file: string, fields: seq<Field>, defs: seq<Field>)
    requires Clean(c, file, Obj(fields))
    ensures Body(Assembled(RewrittenObject(file, fields), defs)) == RewrittenObject(file, Body(fields))
    ensures Clean(c, file, Obj(Body(fields)))
    ensures Targets(file, Obj(Body(fields))) <= Targets(file, Obj(fields))
  {
    var rewritten := RewrittenObject(file, fields);
    BodyOfPut(rewritten, DEFS, Obj(defs));
    BodyOfPut(if defs == [] then rewritten else Put(rewritten, DEFS, Obj(defs)), SCHEMA, DIALECT);
    BodyKeepsRef(fields);
    BodyOfRewritten(file, fields, RefOf(fields).Some?);
    BodyIsClean(c, file, fields, RefOf(fields).Some?);
    if RefOf(fields).Some? {
      var ref := Field(REF, Str(NewRef(file, RefOf(fields).value)));
      var kept := RewrittenFields(file, fields, true);
      assert rewritten == [ref] + kept && rewritten[1..] == kept;
      assert !WrittenAtRoot(REF);
    }
  }

  lemma BundleServes(c: Contracts, root: Key, keys: set<Key>, defs: seq<Field>, bundle: Json)
    requires IsBundle(c, root, keys, defs, bundle)
    requires !ReachesBroken(c, Successors(c, root))
    ensures Serves(c, keys, defs)
    ensures defs != [] ==> DefsOf(bundle) == defs
    ensures defs == [] ==> keys == {}
    ensures Successors(c, root) <= keys
  {
    SortedIsDistinct(defs);
    forall k | k in keys
      ensures Served(c, keys, defs, k)
    {
      assert !Broken(c, k);
      assert Entry(c, k) in defs;
      GetUnique(defs, Entry(c, k));
      forall next | next in Successors(c, k)
        ensures next in keys
      {
        ReachedNext(c, Successors(c, root), k, next);
      }
    }
    forall k | k in Successors(c, root)
      ensures k in keys
    {
      ReachesItself(c, k);
      assert ReachedFrom(c, Successors(c, root), k);
    }
    var fields := RewrittenObject(root.file, Definition(c, root).value.fields);
    GetPut(fields, DEFS, Obj(defs), DEFS);
    GetPut(Put(fields, DEFS, Obj(defs)), SCHEMA, DIALECT, DEFS);
  }

  lemma ReachedNext(c: Contracts, starts: set<Key>, key: Key, next: Key)
    requires ReachedFrom(c, starts, key) && next in Successors(c, key)
    ensures ReachedFrom(c, starts, next)
  {
    var start :| start in starts && Reaches(c, start, key);
    var path :| Path(c, path) && path[0] == start && path[|path| - 1] == key;
    var longer := path + [next];
    assert Path(c, longer) && longer[|longer| - 1] == next && longer[0] == start;
    assert Reaches(c, start, next);
  }

  lemma ServedKeepsMeaning(c: Contracts, keys: set<Key>, defs: seq<Field>, k: Key, n: nat)
    requires Serves(c, keys, defs) && k in keys
    ensures Definition(c, k).Some? && Get(defs, Alias(k)).Some?
    ensures Unfold(Bundled(defs), "", Get(defs, Alias(k)).value, n) ==
            Unfold(Source(c), k.file, Definition(c, k).value, n)
  {
    hide Unfold, Complete, Clean, Rewritten, Alias;
    assert Served(c, keys, defs, k);
    RewritingPreservesMeaning(c, keys, defs, k.file, Definition(c, k).value, n);
  }

  /** Bundling preserves meaning: apart from the `$defs` and `$schema` written at its root, a bundle
      unfolds, to every depth, to what the definition it was made from unfolds to, and no reference
      in it dangles. */
  lemma BundlePreservesMeaning(c: Contracts, root: Key, keys: set<Key>, defs: seq<Field>, bundle: Json, n: nat)
    requires IsBundle(c, root, keys, defs, bundle)
    requires Clean(c, root.file, Definition(c, root).value) && !ReachesBroken(c, Successors(c, root))
    ensures bundle.Obj?
    ensures Unfold(Bundled(DefsOf(bundle)), "", Obj(Body(bundle.fields)), n) ==
            Unfold(Source(c), root.file, Obj(Body(Definition(c, root).value.fields)), n)
    ensures Complete(Unfold(Bundled(DefsOf(bundle)), "", Obj(Body(bundle.fields)), n))
    ensures forall k :: k in keys ==>
              Get(DefsOf(bundle), Alias(k)).Some? &&
              Unfold(Bundled(DefsOf(bundle)), "", Get(DefsOf(bundle), Alias(k)).value, n) ==
              Unfold(Source(c), k.file, Definition(c, k).value, n)
  {
    hide Unfold, Complete, Clean, RewrittenObject, Alias, Served;
    BundleServes(c, root, keys, defs, bundle);
    var fields := Definition(c, root).value.fields;
    BodyOfBundle(c, root.file, fields, defs);
    assert Serves(c, keys, DefsOf(bundle));
    RewritingPreservesMeaning(c, keys, DefsOf(bundle), root.file, Obj(Body(fields)), n);
    forall k | k in keys
      ensures Get(DefsOf(bundle), Alias(k)).Some? &&
              Unfold(Bundled(DefsOf(bundle)), "", Get(DefsOf(bundle), Alias(k)).value, n) ==
              Unfold(Source(c), k.file, Definition(c, k).value, n)
    {
      ServedKeepsMeaning(c, keys, DefsOf(bundle), k, n);
    }
  }
}

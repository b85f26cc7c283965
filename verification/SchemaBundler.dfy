/** `_bundle_schema` of src/aar/schema_generator.py: definitions from several documents, gathered into one schema. */
module SchemaBundler {
  import opened JsonValues
  import opened KeyOrder

  /** The contract documents by file name. */
  type Contracts = map<string, seq<Field>>

  /** One definition: the file it is in and its name there. */
  datatype Key = Key(file: string, name: string)

  datatype BundleError =
    | MalformedRef(text: string)
    | Unresolved(key: Key)
    | PrefixMissing(file: string)
    | RootNotObject

  const REF := "$ref"
  const DEFS := "$defs"
  const SCHEMA := "$schema"
  const LOCAL := "#/$defs/"
  const FRAGMENT := "/$defs/"
  const DIALECT := Str("https://json-schema.org/draft/2020-12/schema")

  function Definitions(document: seq<Field>): seq<Field> {
    match Get(document, DEFS)
    case Some(Obj(fields)) => fields
    case _ => []
  }

  function Definition(c: Contracts, key: Key): Option<Json> {
    if key.file in c then Get(Definitions(c[key.file]), key.name) else None
  }

  /** Every definition there is; what the walk can ever collect. */
  ghost function AllKeys(c: Contracts): set<Key> {
    set file, i | file in c && 0 <= i < |Definitions(c[file])| :: Key(file, Definitions(c[file])[i].key)
  }

  lemma DefinedIsListed(c: Contracts, key: Key)
    requires Definition(c, key).Some?
    ensures key in AllKeys(c)
  {
    var fields := Definitions(c[key.file]);
    var v := Get(fields, key.name).value;
    GetFinds(fields, key.name);
    var i :| 0 <= i < |fields| && fields[i] == Field(key.name, v);
  }

  // Names

  function Prefix(file: string): Option<string> {
    if file == "aar-acceptance-evidence-v1.schema.json" then Some("evidence")
    else if file == "aar-artifact-publication-v1.schema.json" then Some("artifact")
    else if file == "aar-caller-work-v1.schema.json" then Some("caller")
    else if file == "aar-migration-cutover-v1.schema.json" then Some("migration")
    else if file == "aar-rlm-workbench-v1.schema.json" then Some("workbench")
    else if file == "aar-workspace-broker-frame-v1.schema.json" then Some("worker")
    else None
  }

  /** The name of a definition in the bundle; files without a prefix never get that far. */
  function Alias(key: Key): string {
    match Prefix(key.file)
    case Some(prefix) => prefix + "__" + key.name
    case None => "__" + key.name
  }

  lemma UnderscoreSplits(p: string, q: string, x: string, y: string)
    requires '_' !in p && '_' !in q
    requires p + "__" + x == q + "__" + y
    ensures p == q && x == y
  {
    var s, t := p + "__" + x, q + "__" + y;
    assert forall i :: 0 <= i < |p| ==> s[i] == p[i] && p[i] in p;
    assert forall i :: 0 <= i < |q| ==> t[i] == q[i] && q[i] in q;
    assert s[|p|] == '_' && t[|q|] == '_';
    assert |p| == |q|;
    assert p == s[..|p|] && q == t[..|p|];
    assert x == s[|p| + 2..] && y == t[|p| + 2..];
  }

  lemma PrefixHasNoUnderscore(file: string)
    requires Prefix(file).Some?
    ensures '_' !in Prefix(file).value
  {
    var p := Prefix(file).value;
    assert p == "evidence" || p == "artifact" || p == "caller" || p == "migration" || p == "workbench" || p == "worker";
    assert '_' !in "evidence" && '_' !in "artifact" && '_' !in "caller";
    assert '_' !in "migration" && '_' !in "workbench" && '_' !in "worker";
  }

  /** The file a prefix stands for; its length and first letter tell. */
  function FileOf(prefix: string): string
    requires prefix != []
  {
    if |prefix| == 8 then
      if prefix[0] == 'e' then "aar-acceptance-evidence-v1.schema.json" else "aar-artifact-publication-v1.schema.json"
    else if |prefix| == 6 then
      if prefix[0] == 'c' then "aar-caller-work-v1.schema.json" else "aar-workspace-broker-frame-v1.schema.json"
    else
      if prefix[0] == 'm' then "aar-migration-cutover-v1.schema.json" else "aar-rlm-workbench-v1.schema.json"
  }

  lemma PrefixTellsFile(file: string)
    requires Prefix(file).Some?
    ensures Prefix(file).value != [] && FileOf(Prefix(file).value) == file
  {
    var p := Prefix(file).value;
    if p == "evidence" {
      assert |p| == 8 && p[0] == 'e';
    } else if p == "artifact" {
      assert |p| == 8 && p[0] == 'a';
    } else if p == "caller" {
      assert |p| == 6 && p[0] == 'c';
    } else if p == "worker" {
      assert |p| == 6 && p[0] == 'w';
    } else {
      assert |p| == 9 && (p[0] == 'm' || p[0] == 'w');
    }
  }

  /** No two definitions share an alias, whatever they are called: no prefix holds an underscore,
      so the first one ends it, and no two files share a prefix. */
  lemma AliasIsInjective(k: Key, l: Key)
    requires Prefix(k.file).Some? && Prefix(l.file).Some?
    requires Alias(k) == Alias(l)
    ensures k == l
  {
    var p, q := Prefix(k.file).value, Prefix(l.file).value;
    assert p + "__" + k.name == Alias(k) && q + "__" + l.name == Alias(l);
    PrefixHasNoUnderscore(k.file);
    PrefixHasNoUnderscore(l.file);
    UnderscoreSplits(p, q, k.name, l.name);
    PrefixTellsFile(k.file);
    PrefixTellsFile(l.file);
  }

  function RemovePrefix(text: string, prefix: string): string {
    if prefix <= text then text[|prefix|..] else text
  }

  /** `text.split("#", 1)` unpacked into two names; none if there is no '#'. */
  function SplitHash(text: string): (r: Option<(string, string)>)
    ensures r.Some? ==> text == r.value.0 + "#" + r.value.1 && '#' !in r.value.0
    ensures r.None? ==> '#' !in text
  {
    if text == [] then None
    else if text[0] == '#' then Some(("", text[1..]))
    else
      match SplitHash(text[1..])
      case None => None
      case Some((before, after)) => Some(([text[0]] + before, after))
  }

  function SplitRef(currentFile: string, ref: string): Option<Key> {
    if LOCAL <= ref then Some(Key(currentFile, RemovePrefix(ref, LOCAL)))
    else
      match SplitHash(ref)
      case None => None
      case Some((file, fragment)) => Some(Key(file, RemovePrefix(fragment, FRAGMENT)))
  }

  /** The reference an object makes, if it makes one. */
  function RefOf(fields: seq<Field>): Option<string> {
    match Get(fields, REF)
    case Some(Str(text)) => Some(text)
    case _ => None
  }

  // The specification of the walk

  /** The reference resolves to a definition that has an alias. */
  predicate GoodRef(c: Contracts, file: string, ref: string) {
    match SplitRef(file, ref)
    case None => false
    case Some(key) => Definition(c, key).Some? && Prefix(key.file).Some?
  }

  /** Every reference inside `value` is good. */
  predicate Clean(c: Contracts, file: string, value: Json)
    decreases value
  {
    match value
    case Arr(items) => CleanItems(c, file, items)
    case Obj(fields) =>
      && (RefOf(fields).Some? ==> GoodRef(c, file, RefOf(fields).value))
      && CleanFields(c, file, fields, RefOf(fields).Some?)
    case _ => true
  }

  predicate CleanItems(c: Contracts, file: string, items: seq<Json>)
    decreases items
  {
    items == [] || (Clean(c, file, items[0]) && CleanItems(c, file, items[1..]))
  }

  predicate CleanFields(c: Contracts, file: string, fields: seq<Field>, skipRef: bool)
    decreases fields
  {
    fields == [] ||
    (((skipRef && fields[0].key == REF) || Clean(c, file, fields[0].value)) &&
     CleanFields(c, file, fields[1..], skipRef))
  }

  /** The definitions `value` refers to. */
  function Targets(file: string, value: Json): set<Key>
    decreases value
  {
    match value
    case Arr(items) => TargetsOfItems(file, items)
    case Obj(fields) =>
      (match RefOf(fields)
       case None => {}
       case Some(ref) => match SplitRef(file, ref) case None => {} case Some(key) => {key})
      + TargetsOfFields(file, fields, RefOf(fields).Some?)
    case _ => {}
  }

  function TargetsOfItems(file: string, items: seq<Json>): set<Key>
    decreases items
  {
    if items == [] then {} else Targets(file, items[0]) + TargetsOfItems(file, items[1..])
  }

  function TargetsOfFields(file: string, fields: seq<Field>, skipRef: bool): set<Key>
    decreases fields
  {
    if fields == [] then {}
    else
      (if skipRef && fields[0].key == REF then {} else Targets(file, fields[0].value))
      + TargetsOfFields(file, fields[1..], skipRef)
  }

  /** `value` with every reference redirected into the bundle. */
  function Rewritten(file: string, value: Json): Json
    decreases value
  {
    match value
    case Arr(items) => Arr(RewrittenItems(file, items))
    case Obj(fields) => Obj(RewrittenObject(file, fields))
    case _ => value
  }

  function RewrittenObject(file: string, fields: seq<Field>): seq<Field>
    decreases fields, 1
  {
    match RefOf(fields)
    case None => RewrittenFields(file, fields, false)
    case Some(ref) => [Field(REF, Str(NewRef(file, ref)))] + RewrittenFields(file, fields, true)
  }

  function NewRef(file: string, ref: string): string {
    match SplitRef(file, ref)
    case None => ref
    case Some(key) => LOCAL + Alias(key)
  }

  function RewrittenItems(file: string, items: seq<Json>): seq<Json>
    decreases items
  {
    if items == [] then [] else [Rewritten(file, items[0])] + RewrittenItems(file, items[1..])
  }

  function RewrittenFields(file: string, fields: seq<Field>, skipRef: bool): seq<Field>
    decreases fields, 0
  {
    if fields == [] then []
    else (if skipRef && fields[0].key == REF then [] else [Field(fields[0].key, Rewritten(file, fields[0].value))])
         + RewrittenFields(file, fields[1..], skipRef)
  }

  /** The definitions one step from `key`. */
  function Successors(c: Contracts, key: Key): set<Key> {
    match Definition(c, key)
    case None => {}
    case Some(value) => Targets(key.file, value)
  }

  ghost predicate Path(c: Contracts, path: seq<Key>) {
    |path| > 0 && forall i :: 0 <= i < |path| - 1 ==> path[i + 1] in Successors(c, path[i])
  }

  /** `to` is `from`, or is referred to from it along any number of definitions. */
  ghost predicate Reaches(c: Contracts, from: Key, to: Key) {
    exists path :: Path(c, path) && path[0] == from && path[|path| - 1] == to
  }

  ghost predicate ReachedFrom(c: Contracts, starts: set<Key>, to: Key) {
    exists start :: start in starts && Reaches(c, start, to)
  }

  lemma ReachesItself(c: Contracts, key: Key)
    ensures Reaches(c, key, key)
  {
    assert Path(c, [key]);
  }

  lemma ReachesFurther(c: Contracts, from: Key, next: Key, to: Key)
    requires next in Successors(c, from) && Reaches(c, next, to)
    ensures Reaches(c, from, to)
  {
    var path :| Path(c, path) && path[0] == next && path[|path| - 1] == to;
    var longer := [from] + path;
    assert Path(c, longer);
    assert longer[|longer| - 1] == to;
  }

  /** A set that holds the starts and their successors holds everything reached. */
  lemma {:induction false} ClosedHoldsPath(c: Contracts, closed: set<Key>, path: seq<Key>)
    requires forall k :: k in closed ==> Successors(c, k) <= closed
    requires Path(c, path) && path[0] in closed
    ensures path[|path| - 1] in closed
  {
    if |path| > 1 {
      assert path[0 + 1] in Successors(c, path[0]);
      forall i | 0 <= i < |path[1..]| - 1
        ensures path[1..][i + 1] in Successors(c, path[1..][i])
      {
        assert path[(i + 1) + 1] in Successors(c, path[i + 1]);
      }
      ClosedHoldsPath(c, closed, path[1..]);
    }
  }

  /** A definition with a reference that does not resolve. */
  ghost predicate Broken(c: Contracts, key: Key) {
    Definition(c, key).Some? && !Clean(c, key.file, Definition(c, key).value)
  }

  ghost predicate ReachesBroken(c: Contracts, starts: set<Key>) {
    exists k :: ReachedFrom(c, starts, k) && Broken(c, k)
  }

  lemma BrokenFromSuccessors(c: Contracts, key: Key)
    requires ReachesBroken(c, Successors(c, key))
    ensures ReachesBroken(c, {key})
  {
    var k :| ReachedFrom(c, Successors(c, key), k) && Broken(c, k);
    var start :| start in Successors(c, key) && Reaches(c, start, k);
    ReachesFurther(c, key, start, k);
    assert ReachedFrom(c, {key}, k);
  }

  lemma BrokenItself(c: Contracts, key: Key)
    requires Broken(c, key)
    ensures ReachesBroken(c, {key})
  {
    ReachesItself(c, key);
    assert ReachedFrom(c, {key}, key);
  }

  lemma BrokenInside(c: Contracts, key: Key)
    requires Definition(c, key).Some?
    requires !Clean(c, key.file, Definition(c, key).value) ||
             ReachesBroken(c, Targets(key.file, Definition(c, key).value))
    ensures ReachesBroken(c, {key})
  {
    if Clean(c, key.file, Definition(c, key).value) {
      BrokenFromSuccessors(c, key);
    } else {
      BrokenItself(c, key);
    }
  }

  // The walk

  /** One visit from `starts` takes the collected set from `before` to `after`: nothing is lost,
      what is new is reached from `starts`, and whatever the starts and the new definitions refer
      to is collected or on the stack. */
  ghost predicate Visited(c: Contracts, before: set<Key>, after: set<Key>, stack: set<Key>, starts: set<Key>) {
    && before <= after
    && starts <= after + stack
    && forall k :: k in after - before ==>
         ReachedFrom(c, starts, k) && Successors(c, k) <= after + stack
  }

  lemma VisitedBoth(c: Contracts, s0: set<Key>, s1: set<Key>, s2: set<Key>, stack: set<Key>, a: set<Key>, b: set<Key>)
    requires Visited(c, s0, s1, stack, a) && Visited(c, s1, s2, stack, b)
    ensures Visited(c, s0, s2, stack, a + b)
  {
    forall k | k in s2 - s0
      ensures ReachedFrom(c, a + b, k) && Successors(c, k) <= s2 + stack
    {
      if k in s1 - s0 {
        var start :| start in a && Reaches(c, start, k);
        assert start in a + b;
      } else {
        assert k in s2 - s1;
        var start :| start in b && Reaches(c, start, k);
        assert start in a + b;
      }
    }
  }

  lemma VisitedKey(c: Contracts, before: set<Key>, after: set<Key>, stack: set<Key>, key: Key)
    requires Visited(c, before, after, stack + {key}, Successors(c, key))
    ensures Visited(c, before, after + {key}, stack, {key})
  {
    forall k | k in after + {key} - before
      ensures ReachedFrom(c, {key}, k) && Successors(c, k) <= after + {key} + stack
    {
      if k == key {
        ReachesItself(c, key);
      } else {
        assert k in after - before;
        var start :| start in Successors(c, key) && Reaches(c, start, k);
        ReachesFurther(c, key, start, k);
      }
    }
  }

  /** What is collected is the rewriting of a definition whose references are all good. */
  ghost predicate AllRewritten(c: Contracts, collected: map<Key, Json>) {
    forall k :: k in collected ==>
      && Definition(c, k).Some?
      && Clean(c, k.file, Definition(c, k).value)
      && collected[k] == Rewritten(k.file, Definition(c, k).value)
  }

  lemma OneMoreRewritten(c: Contracts, collected: map<Key, Json>, key: Key, stack: set<Key>)
    requires AllRewritten(c, collected)
    requires Definition(c, key).Some? && Clean(c, key.file, Definition(c, key).value)
    requires collected.Keys !! stack + {key} && key !in stack
    ensures AllRewritten(c, collected[key := Rewritten(key.file, Definition(c, key).value)])
    ensures collected[key := Rewritten(key.file, Definition(c, key).value)].Keys == collected.Keys + {key}
    ensures collected.Keys + {key} !! stack
    ensures stack + {key} - {key} == stack
  {
  }

  class Walk {
    const contracts: Contracts
    var collected: map<Key, Json>
    var inProgress: set<Key>

    constructor (contracts: Contracts)
      ensures this.contracts == contracts && collected == map[] && inProgress == {}
    {
      this.contracts := contracts;
      collected, inProgress := map[], {};
    }

    ghost predicate Valid()
      reads this
    {
      && collected.Keys !! inProgress
      && (forall k :: k in inProgress ==> Definition(contracts, k).Some?)
      && AllRewritten(contracts, collected)
    }

    ghost function Remaining(): set<Key>
      reads this
    {
      AllKeys(contracts) - collected.Keys - inProgress
    }

    method Collect(key: Key) returns (r: Result<(), BundleError>)
      requires Valid()
      modifies this
      ensures r.Ok? ==>
                && Valid() && inProgress == old(inProgress)
                && Visited(contracts, old(collected.Keys), collected.Keys, inProgress, {key})
      ensures r.Ok? ==> Definition(contracts, key).Some?
      ensures r.Err? ==> Definition(contracts, key).None? || ReachesBroken(contracts, {key})
      decreases Remaining(), 0
    {
      if key in collected || key in inProgress {
        return Ok(());
      }
      if Definition(contracts, key).None? {
        return Err(Unresolved(key));
      }
      DefinedIsListed(contracts, key);
      var definition := Definition(contracts, key).value;
      ghost var stack := inProgress;
      inProgress := inProgress + {key};
      var rewritten := Rewrite(key.file, definition);
      if rewritten.Err? {
        BrokenInside(contracts, key);
        return Err(rewritten.error);
      }
      VisitedKey(contracts, old(collected.Keys), collected.Keys, stack, key);
      OneMoreRewritten(contracts, collected, key, stack);
      collected := collected[key := rewritten.value];
      inProgress := inProgress - {key};
      return Ok(());
    }

    method Rewrite(file: string, value: Json) returns (r: Result<Json, BundleError>)
      requires Valid()
      modifies this
      ensures r.Ok? ==>
                && Valid() && inProgress == old(inProgress)
                && Visited(contracts, old(collected.Keys), collected.Keys, inProgress, Targets(file, value))
                && Clean(contracts, file, value)
      ensures r.Ok? ==> r.value == Rewritten(file, value)
      ensures r.Err? ==> !Clean(contracts, file, value) || ReachesBroken(contracts, Targets(file, value))
      decreases Remaining(), 1, value
    {
      match value {
        case Arr(items) =>
          var rewritten := RewriteItems(file, items);
          if rewritten.Err? {
            return Err(rewritten.error);
          }
          return Ok(Arr(rewritten.value));
        case Obj(fields) =>
          var ref := RefOf(fields);
          if ref.None? {
            var rewritten := RewriteFields(file, fields, false);
            if rewritten.Err? {
              return Err(rewritten.error);
            }
            return Ok(Obj(rewritten.value));
          }
          var rewritten := RewriteRef(file, fields, ref.value);
          if rewritten.Err? {
            return Err(rewritten.error);
          }
          return Ok(Obj(rewritten.value));
        case _ =>
          return Ok(value);
      }
    }

    method RewriteRef(file: string, fields: seq<Field>, ref: string) returns (r: Result<seq<Field>, BundleError>)
      requires Valid() && RefOf(fields) == Some(ref)
      modifies this
      ensures r.Ok? ==>
                && Valid() && inProgress == old(inProgress)
                && Visited(contracts, old(collected.Keys), collected.Keys, inProgress, Targets(file, Obj(fields)))
                && Clean(contracts, file, Obj(fields))
      ensures r.Ok? ==> r.value == RewrittenObject(file, fields)
      ensures r.Err? ==> !Clean(contracts, file, Obj(fields)) || ReachesBroken(contracts, Targets(file, Obj(fields)))
      decreases Remaining(), 1, fields, 1
    {
      var target := SplitRef(file, ref);
      if target.None? {
        return Err(MalformedRef(ref));
      }
      var visit := Collect(target.value);
      if visit.Err? {
        return Err(visit.error);
      }
      if Prefix(target.value.file).None? {
        return Err(PrefixMissing(target.value.file));
      }
      ghost var s1 := collected.Keys;
      var siblings := RewriteFields(file, fields, true);
      if siblings.Err? {
        return Err(siblings.error);
      }
      VisitedBoth(contracts, old(collected.Keys), s1, collected.Keys, inProgress, {target.value},
                  TargetsOfFields(file, fields, true));
      return Ok([Field(REF, Str(LOCAL + Alias(target.value)))] + siblings.value);
    }

    method RewriteItems(file: string, items: seq<Json>) returns (r: Result<seq<Json>, BundleError>)
      requires Valid()
      modifies this
      ensures r.Ok? ==>
                && Valid() && inProgress == old(inProgress)
                && Visited(contracts, old(collected.Keys), collected.Keys, inProgress, TargetsOfItems(file, items))
                && CleanItems(contracts, file, items)
      ensures r.Ok? ==> r.value == RewrittenItems(file, items)
      ensures r.Err? ==> !CleanItems(contracts, file, items) || ReachesBroken(contracts, TargetsOfItems(file, items))
      decreases Remaining(), 1, items
    {
      if items == [] {
        return Ok([]);
      }
      var first := Rewrite(file, items[0]);
      if first.Err? {
        return Err(first.error);
      }
      ghost var s1 := collected.Keys;
      var rest := RewriteItems(file, items[1..]);
      if rest.Err? {
        return Err(rest.error);
      }
      VisitedBoth(contracts, old(collected.Keys), s1, collected.Keys, inProgress, Targets(file, items[0]),
                  TargetsOfItems(file, items[1..]));
      return Ok([first.value] + rest.value);
    }

    method RewriteFields(file: string, fields: seq<Field>, skipRef: bool) returns (r: Result<seq<Field>, BundleError>)
      requires Valid()
      modifies this
      ensures r.Ok? ==>
                && Valid() && inProgress == old(inProgress)
                && Visited(contracts, old(collected.Keys), collected.Keys, inProgress,
                           TargetsOfFields(file, fields, skipRef))
                && CleanFields(contracts, file, fields, skipRef)
      ensures r.Ok? ==> r.value == RewrittenFields(file, fields, skipRef)
      ensures r.Err? ==>
                !CleanFields(contracts, file, fields, skipRef) ||
                ReachesBroken(contracts, TargetsOfFields(file, fields, skipRef))
      decreases Remaining(), 1, fields, 0
    {
      if fields == [] {
        return Ok([]);
      }
      if skipRef && fields[0].key == REF {
        r := RewriteFields(file, fields[1..], skipRef);
        return;
      }
      var first := Rewrite(file, fields[0].value);
      if first.Err? {
        return Err(first.error);
      }
      ghost var s1 := collected.Keys;
      var rest := RewriteFields(file, fields[1..], skipRef);
      if rest.Err? {
        return Err(rest.error);
      }
      VisitedBoth(contracts, old(collected.Keys), s1, collected.Keys, inProgress, Targets(file, fields[0].value),
                  TargetsOfFields(file, fields[1..], skipRef));
      return Ok([Field(fields[0].key, first.value)] + rest.value);
    }
  }

  // The bundle

  /** The definition a descriptor names. */
  function RootKey(schemaRef: string): Option<Key> {
    match SplitHash(schemaRef)
    case None => None
    case Some((file, fragment)) =>
      if FRAGMENT <= fragment then Some(Key(file, RemovePrefix(fragment, FRAGMENT))) else None
  }

  /** The descriptor names an object definition, and no reference met from it is bad. */
  ghost predicate Bundleable(c: Contracts, schemaRef: string) {
    && RootKey(schemaRef).Some?
    && var root := RootKey(schemaRef).value;
       && Definition(c, root).Some?
       && Definition(c, root).value.Obj?
       && Clean(c, root.file, Definition(c, root).value)
       && !ReachesBroken(c, Successors(c, root))
  }

  /** The definition exists, and its file has a prefix to name it by. */
  predicate Known(c: Contracts, key: Key) {
    Definition(c, key).Some? && Prefix(key.file).Some?
  }

  function Entry(c: Contracts, key: Key): Field
    requires Definition(c, key).Some?
  {
    Field(Alias(key), Rewritten(key.file, Definition(c, key).value))
  }

  /** `defs` holds exactly the rewritten definitions in `keys`, sorted by alias. */
  ghost predicate Lists(c: Contracts, keys: set<Key>, defs: seq<Field>) {
    && (forall k :: k in keys ==> Known(c, k))
    && Sorted(defs)
    && forall f :: f in defs <==> exists k :: k in keys && f == Entry(c, k)
  }

  function Assembled(fields: seq<Field>, defs: seq<Field>): seq<Field> {
    Put(if defs == [] then fields else Put(fields, DEFS, Obj(defs)), SCHEMA, DIALECT)
  }

  /** The bundle of `root`: its own rewriting, and the definitions reached from it and no others. */
  ghost predicate IsBundle(c: Contracts, root: Key, keys: set<Key>, defs: seq<Field>, bundle: Json) {
    && Definition(c, root).Some? && Definition(c, root).value.Obj?
    && (forall k :: k in keys <==> ReachedFrom(c, Successors(c, root), k))
    && Lists(c, keys, defs)
    && bundle == Obj(Assembled(RewrittenObject(root.file, Definition(c, root).value.fields), defs))
  }

  /** Nothing about a bundle is left open. */
  lemma BundleIsUnique(c: Contracts, root: Key, keys: set<Key>, defs: seq<Field>, bundle: Json,
                       keys': set<Key>, defs': seq<Field>, bundle': Json)
    requires IsBundle(c, root, keys, defs, bundle) && IsBundle(c, root, keys', defs', bundle')
    ensures bundle == bundle'
  {
    assert keys == keys';
    SortedIsCanonical(defs, defs');
  }

  /** A clean definition refers only to definitions that exist and have aliases. */
  lemma {:induction false} CleanTargets(c: Contracts, file: string, value: Json)
    requires Clean(c, file, value)
    ensures forall k :: k in Targets(file, value) ==> Known(c, k)
    decreases value
  {
    match value
    case Arr(items) => CleanItemsTargets(c, file, items);
    case Obj(fields) => CleanFieldsTargets(c, file, fields, RefOf(fields).Some?);
    case _ =>
  }

  lemma {:induction false} CleanItemsTargets(c: Contracts, file: string, items: seq<Json>)
    requires CleanItems(c, file, items)
    ensures forall k :: k in TargetsOfItems(file, items) ==> Known(c, k)
    decreases items
  {
    if items != [] {
      CleanTargets(c, file, items[0]);
      CleanItemsTargets(c, file, items[1..]);
    }
  }

  lemma {:induction false} CleanFieldsTargets(c: Contracts, file: string, fields: seq<Field>, skipRef: bool)
    requires CleanFields(c, file, fields, skipRef)
    ensures forall k :: k in TargetsOfFields(file, fields, skipRef) ==> Known(c, k)
    decreases fields
  {
    if fields != [] {
      if !(skipRef && fields[0].key == REF) {
        CleanTargets(c, file, fields[0].value);
      }
      CleanFieldsTargets(c, file, fields[1..], skipRef);
    }
  }

  lemma {:induction false} CleanPathEnds(c: Contracts, starts: set<Key>, path: seq<Key>)
    requires forall k :: k in starts ==> Known(c, k)
    requires Path(c, path) && path[0] in starts && !ReachesBroken(c, starts)
    ensures Known(c, path[|path| - 1])
  {
    if |path| > 1 {
      var shorter := path[..|path| - 1];
      CleanPathEnds(c, starts, shorter);
      var last := shorter[|shorter| - 1];
      assert !Broken(c, last);
      CleanTargets(c, last.file, Definition(c, last).value);
      assert path[(|path| - 2) + 1] in Successors(c, path[|path| - 2]);
    }
  }

  lemma ReachedHasAlias(c: Contracts, starts: set<Key>, key: Key)
    requires forall k :: k in starts ==> Known(c, k)
    requires ReachedFrom(c, starts, key) && !ReachesBroken(c, starts)
    ensures Known(c, key)
  {
    var start :| start in starts && Reaches(c, start, key);
    var path :| Path(c, path) && path[0] == start && path[|path| - 1] == key;
    CleanPathEnds(c, starts, path);
  }

  lemma ListsOneMore(c: Contracts, keys: set<Key>, defs: seq<Field>, key: Key)
    requires Lists(c, keys, defs)
    requires key !in keys && Known(c, key)
    ensures Lists(c, keys + {key}, Insert(Entry(c, key), defs))
    ensures Insert(Entry(c, key), defs) != []
  {
    var entry := Entry(c, key);
    forall f | f in defs
      ensures f.key != entry.key
    {
      var k :| k in keys && f == Entry(c, k);
      if Alias(k) == Alias(key) {
        AliasIsInjective(k, key);
      }
    }
    InsertSorts(entry, defs);
    InsertMembers(entry, defs);
    forall f
      ensures f in Insert(entry, defs) <==> exists k :: k in keys + {key} && f == Entry(c, k)
    {
      if f == entry {
        assert key in keys + {key};
      } else if f in defs {
        var k :| k in keys && f == Entry(c, k);
        assert k in keys + {key};
      }
    }
  }

  /** `{alias(key): value for key, value in sorted(collected.items())}`. */
  method ListDefs(c: Contracts, collected: map<Key, Json>) returns (defs: seq<Field>)
    requires AllRewritten(c, collected)
    requires forall k :: k in collected ==> Known(c, k)
    ensures Lists(c, collected.Keys, defs)
    ensures defs == [] <==> collected == map[]
  {
    defs := [];
    var todo := collected.Keys;
    ghost var done: set<Key> := {};
    while todo != {}
      invariant done + todo == collected.Keys && done !! todo
      invariant Lists(c, done, defs)
      invariant defs == [] <==> done == {}
    {
      var key :| key in todo;
      assert collected[key] == Entry(c, key).value;
      ListsOneMore(c, done, defs, key);
      defs := Insert(Field(Alias(key), collected[key]), defs);
      todo, done := todo - {key}, done + {key};
    }
    assert done == collected.Keys;
  }

  lemma InsertMembers(f: Field, fields: seq<Field>)
    ensures forall g :: g in Insert(f, fields) <==> g == f || g in fields
    ensures Insert(f, fields) != []
  {
    forall g
      ensures g in Insert(f, fields) <==> g == f || g in fields
    {
      assert g in Insert(f, fields) <==> g in multiset(Insert(f, fields));
      assert g in fields <==> g in multiset(fields);
    }
    assert f in multiset(Insert(f, fields));
  }

  /** Bundling succeeds exactly when every reference met resolves, and then returns the bundle. */
  method BundleSchema(schemaRef: string, contracts: Contracts) returns (r: Result<Json, BundleError>)
    ensures r.Ok? <==> Bundleable(contracts, schemaRef)
    ensures r.Ok? ==> exists keys, defs :: IsBundle(contracts, RootKey(schemaRef).value, keys, defs, r.value)
  {
    if RootKey(schemaRef).None? {
      return Err(MalformedRef(schemaRef));
    }
    var root := RootKey(schemaRef).value;
    if Definition(contracts, root).None? {
      return Err(Unresolved(root));
    }
    var definition := Definition(contracts, root).value;
    var walk := new Walk(contracts);
    var rewritten := walk.Rewrite(root.file, definition);
    if rewritten.Err? {
      return Err(rewritten.error);
    }
    ClosedWalk(contracts, walk.collected, Successors(contracts, root));
    CleanTargets(contracts, root.file, definition);
    forall k | k in walk.collected
      ensures Known(contracts, k)
    {
      ReachedHasAlias(contracts, Successors(contracts, root), k);
    }
    if !rewritten.value.Obj? {
      return Err(RootNotObject);
    }
    var defs := ListDefs(contracts, walk.collected);
    var bundle := Obj(Assembled(rewritten.value.fields, defs));
    assert IsBundle(contracts, root, walk.collected.Keys, defs, bundle);
    return Ok(bundle);
  }

  /** A finished walk has collected what is reached, and none of it is broken. */
  lemma ClosedWalk(c: Contracts, collected: map<Key, Json>, starts: set<Key>)
    requires AllRewritten(c, collected)
    requires Visited(c, {}, collected.Keys, {}, starts)
    ensures forall k :: k in collected <==> ReachedFrom(c, starts, k)
    ensures !ReachesBroken(c, starts)
  {
    forall k | ReachedFrom(c, starts, k)
      ensures k in collected
    {
      var start :| start in starts && Reaches(c, start, k);
      var path :| Path(c, path) && path[0] == start && path[|path| - 1] == k;
      assert forall j :: j in collected.Keys ==> j in collected.Keys - {};
      ClosedHoldsPath(c, collected.Keys, path);
    }
    forall k | k in collected
      ensures ReachedFrom(c, starts, k)
    {
      assert k in collected.Keys - {};
    }
  }
}

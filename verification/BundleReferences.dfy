/** Where a reference leads, by its text alone, and what of that a bundle holds. */
module BundleReferences {
  import opened JsonValues
  import opened KeyOrder
  import opened SchemaBundler
  import opened BundleMeaning

  // References by their text

  /** In a document called `file`, the text names the definition `name` of the document `target`. */
  predicate Says(file: string, text: string, target: string, name: string) {
    || (text == "#/$defs/" + name && target == file)
    || (text == target + "#/$defs/" + name && target != "" && '#' !in target)
  }

  lemma {:induction false} HashSplits(before: string, after: string)
    requires '#' !in before
    ensures SplitHash(before + "#" + after) == Some((before, after))
    decreases |before|
  {
    var text := before + "#" + after;
    if before == [] {
      assert text[0] == '#' && text[1..] == after;
    } else {
      assert text[0] == before[0] && text[1..] == before[1..] + "#" + after;
      HashSplits(before[1..], after);
      assert [before[0]] + before[1..] == before;
    }
  }

  lemma {:induction false} NoHashNoSplit(text: string)
    ensures SplitHash(text).None? <==> '#' !in text
    decreases |text|
  {
    if text != [] && text[0] != '#' {
      NoHashNoSplit(text[1..]);
    }
  }

  lemma TargetThenFragment(target: string, name: string)
    ensures target + "#/$defs/" + name == target + "#" + ("/$defs/" + name)
    ensures "/$defs/" <= "/$defs/" + name && ("/$defs/" + name)[|"/$defs/"|..] == name
  {
    assert "#/$defs/" == "#" + "/$defs/";
  }

  lemma OnlyLocalStartsWithHash(target: string, name: string)
    requires target != "" && '#' !in target
    ensures !("#/$defs/" <= target + "#/$defs/" + name)
  {
    assert (target + "#/$defs/" + name)[0] == target[0];
  }

  /** A reference leads where its text says, and a text without '#' leads nowhere. */
  lemma ReferenceLeads(file: string, text: string, target: string, name: string)
    ensures Says(file, text, target, name) ==> SplitRef(file, text) == Some(Key(target, name))
    ensures SplitRef(file, text).None? <==> '#' !in text
  {
    NoHashNoSplit(text);
    if text == "#/$defs/" + name && target == file {
      assert text[|"#/$defs/"|..] == name;
    } else if Says(file, text, target, name) {
      OnlyLocalStartsWithHash(target, name);
      TargetThenFragment(target, name);
      HashSplits(target, "/$defs/" + name);
    }
    LocalHasHash(text);
  }

  lemma LocalHasHash(text: string)
    ensures "#/$defs/" <= text ==> '#' in text
  {
    if "#/$defs/" <= text {
      assert text[0] == '#';
    }
  }

  /** The other direction: what a reference leads to is what its text says, unless what follows the '#' is
      no path to a definition; then all of it counts as the name. */
  lemma LeadsOnlyThere(file: string, text: string, key: Key)
    requires SplitRef(file, text) == Some(key)
    ensures Says(file, text, key.file, key.name) || (text == key.file + "#" + key.name && !("/$defs/" <= key.name))
  {
    if "#/$defs/" <= text {
      assert text == "#/$defs/" + text[|"#/$defs/"|..];
    } else {
      var (target, fragment) := SplitHash(text).value;
      if "/$defs/" <= fragment {
        assert fragment == "/$defs/" + fragment[|"/$defs/"|..];
        TargetThenFragment(target, key.name);
        NoTargetIsLocal(target, fragment);
      }
    }
  }

  lemma NoTargetIsLocal(target: string, fragment: string)
    requires "/$defs/" <= fragment
    ensures target == "" ==> "#/$defs/" <= target + "#" + fragment
  {
    assert fragment == "/$defs/" + fragment[|"/$defs/"|..];
    TargetThenFragment(target, fragment[|"/$defs/"|..]);
  }

  /** A descriptor names a definition exactly when it is a document and a path to a definition. */
  lemma DescriptorNames(text: string, target: string, name: string)
    requires '#' !in target
    ensures RootKey(text) == Some(Key(target, name)) <==> text == target + "#/$defs/" + name
  {
    TargetThenFragment(target, name);
    HashSplits(target, "/$defs/" + name);
    if RootKey(text) == Some(Key(target, name)) {
      var fragment := SplitHash(text).value.1;
      assert fragment == "/$defs/" + fragment[|"/$defs/"|..];
    }
  }

  // Documents and their names

  /** The documents that have a name in a bundle, and that name. */
  const NAMED: set<(string, string)> := {
    ("aar-acceptance-evidence-v1.schema.json", "evidence"),
    ("aar-artifact-publication-v1.schema.json", "artifact"),
    ("aar-caller-work-v1.schema.json", "caller"),
    ("aar-migration-cutover-v1.schema.json", "migration"),
    ("aar-rlm-workbench-v1.schema.json", "workbench"),
    ("aar-workspace-broker-frame-v1.schema.json", "worker")}

  /** A definition is what stands under its name in the `$defs` of its document, and is named in a bundle by the name of
      its document, two underscores and its own. */
  lemma DefinitionsAreNamed(c: Contracts, file: string, name: string, prefix: string)
    ensures Definition(c, Key(file, name)) ==
            if file in c && Get(c[file], "$defs").Some? && Get(c[file], "$defs").value.Obj?
            then Get(Get(c[file], "$defs").value.fields, name) else None
    ensures Prefix(file) == Some(prefix) <==> (file, prefix) in NAMED
    ensures (file, prefix) in NAMED ==> Alias(Key(file, name)) == prefix + "__" + name
  {
    FilesAreApart();
  }

  lemma FilesAreApart()
    ensures forall a, b :: a in NAMED && b in NAMED && a.0 == b.0 ==> a == b
  {
    assert "aar-acceptance-evidence-v1.schema.json"[5] == 'c' && "aar-artifact-publication-v1.schema.json"[5] == 'r';
    assert "aar-caller-work-v1.schema.json"[4] == 'c' && "aar-migration-cutover-v1.schema.json"[4] == 'm';
    assert "aar-rlm-workbench-v1.schema.json"[4] == 'r' && "aar-workspace-broker-frame-v1.schema.json"[4] == 'w';
    assert "aar-acceptance-evidence-v1.schema.json"[4] == 'a' && "aar-artifact-publication-v1.schema.json"[4] == 'a';
  }

  // References inside a value

  /** Somewhere inside `value` an object refers by this text. */
  ghost predicate Mentions(value: Json, text: string)
    decreases value
  {
    match value
    case Arr(items) => exists i :: 0 <= i < |items| && Mentions(items[i], text)
    case Obj(fields) =>
      || Get(fields, "$ref") == Some(Str(text))
      || exists i :: 0 <= i < |fields| && !IsReference(fields, fields[i].key) && Mentions(fields[i].value, text)
    case _ => false
  }

  /** The key is that of the reference an object makes. */
  predicate IsReference(fields: seq<Field>, key: string) {
    key == "$ref" && Get(fields, "$ref").Some? && Get(fields, "$ref").value.Str?
  }

  lemma {:induction false} ItemTargets(file: string, items: seq<Json>, i: nat)
    requires i < |items|
    ensures Targets(file, items[i]) <= TargetsOfItems(file, items)
    decreases |items|
  {
    hide Targets;
    if i > 0 {
      ItemTargets(file, items[1..], i - 1);
    }
  }

  lemma {:induction false} FieldTargets(file: string, fields: seq<Field>, skipRef: bool, i: nat)
    requires i < |fields| && !(skipRef && fields[i].key == REF)
    ensures Targets(file, fields[i].value) <= TargetsOfFields(file, fields, skipRef)
    decreases |fields|
  {
    hide Targets;
    if i > 0 {
      FieldTargets(file, fields[1..], skipRef, i - 1);
    }
  }

  lemma {:induction false} MentionedIsTarget(file: string, value: Json, text: string, key: Key)
    requires Mentions(value, text) && SplitRef(file, text) == Some(key)
    ensures key in Targets(file, value)
    decreases value
  {
    hide SplitRef;
    match value
    case Arr(items) =>
      var i :| 0 <= i < |items| && Mentions(items[i], text);
      MentionedIsTarget(file, items[i], text, key);
      ItemTargets(file, items, i);
    case Obj(fields) =>
      if Get(fields, "$ref") != Some(Str(text)) {
        var i :| 0 <= i < |fields| && !IsReference(fields, fields[i].key) && Mentions(fields[i].value, text);
        MentionedIsTarget(file, fields[i].value, text, key);
        FieldTargets(file, fields, RefOf(fields).Some?, i);
      }
    case _ =>
  }

  lemma {:induction false} ItemRewritten(file: string, items: seq<Json>, i: nat)
    requires i < |items|
    ensures |RewrittenItems(file, items)| == |items|
    ensures RewrittenItems(file, items)[i] == Rewritten(file, items[i])
    decreases |items|
  {
    hide Rewritten;
    if i > 0 {
      ItemRewritten(file, items[1..], i - 1);
    } else if |items| > 1 {
      ItemRewritten(file, items[1..], 0);
    }
  }

  lemma {:induction false} FieldRewritten(file: string, fields: seq<Field>, skipRef: bool, i: nat)
    requires i < |fields| && !(skipRef && fields[i].key == REF)
    ensures Field(fields[i].key, Rewritten(file, fields[i].value)) in RewrittenFields(file, fields, skipRef)
    decreases |fields|
  {
    hide Rewritten;
    if i > 0 {
      FieldRewritten(file, fields[1..], skipRef, i - 1);
    }
  }

  /** Where the source says one text, the bundle says the text that replaces it. */
  lemma {:induction false} MentionRewritten(file: string, value: Json, text: string)
    requires Mentions(value, text)
    ensures Mentions(Rewritten(file, value), NewRef(file, text))
    decreases value
  {
    hide NewRef;
    match value
    case Arr(items) =>
      var i :| 0 <= i < |items| && Mentions(items[i], text);
      MentionRewritten(file, items[i], text);
      ItemRewritten(file, items, i);
      assert Mentions(RewrittenItems(file, items)[i], NewRef(file, text));
    case Obj(fields) =>
      var done := RewrittenObject(file, fields);
      if Get(fields, "$ref") == Some(Str(text)) {
        FirstRef(NewRef(file, text), RewrittenFields(file, fields, true));
      } else {
        var i :| 0 <= i < |fields| && !IsReference(fields, fields[i].key) && Mentions(fields[i].value, text);
        MentionRewritten(file, fields[i].value, text);
        FieldRewritten(file, fields, RefOf(fields).Some?, i);
        var f := Field(fields[i].key, Rewritten(file, fields[i].value));
        StillNoReference(file, fields, fields[i].key);
        assert f in done;
        var j :| 0 <= j < |done| && done[j] == f;
        assert Mentions(done[j].value, NewRef(file, text));
      }
    case _ =>
  }

  lemma StillNoReference(file: string, fields: seq<Field>, key: string)
    requires !IsReference(fields, key)
    ensures !IsReference(RewrittenObject(file, fields), key)
  {
    if key == "$ref" {
      GetRewritten(file, fields, "$ref");
      if Get(fields, "$ref").Some? {
        NoStringAppears(file, Get(fields, "$ref").value);
      }
    }
  }

  lemma NoStringAppears(file: string, value: Json)
    ensures Rewritten(file, value).Str? <==> value.Str?
  {
  }

  // The bundle

  /** Wherever a bundled value says `text` in its document, the bundle holds the very definition the text names,
      under the prefix of that document and the name, and refers to it there. */
  lemma BundleHoldsTheNamed(c: Contracts, root: Key, keys: set<Key>, defs: seq<Field>, bundle: Json, from: Key,
                            text: string, target: string, name: string)
    requires IsBundle(c, root, keys, defs, bundle) && (from == root || from in keys)
    requires Definition(c, from).Some? && Mentions(Definition(c, from).value, text)
    requires Says(from.file, text, target, name)
    ensures target in c && Get(Definitions(c[target]), name).Some? && Prefix(target).Some?
    ensures var alias := Prefix(target).value + "__" + name;
      && Get(defs, alias) == Some(Rewritten(target, Get(Definitions(c[target]), name).value))
      && Mentions(Rewritten(from.file, Definition(c, from).value), "#/$defs/" + alias)
  {
    hide Rewritten, Mentions, SplitRef, Targets, Says;
    var key := Key(target, name);
    ReferenceLeads(from.file, text, target, name);
    MentionedIsTarget(from.file, Definition(c, from).value, text, key);
    assert key in Successors(c, from);
    if from == root {
      ReachesItself(c, key);
      assert ReachedFrom(c, Successors(c, root), key);
    } else {
      ReachedNext(c, Successors(c, root), from, key);
    }
    assert key in keys && Known(c, key);
    assert Entry(c, key) in defs;
    SortedIsDistinct(defs);
    GetUnique(defs, Entry(c, key));
    MentionRewritten(from.file, Definition(c, from).value, text);
  }

  /** What a bundle shows at its top: the dialect, the definitions when there are any, and otherwise the fields
      of the rewritten root. */
  lemma BundleShows(c: Contracts, root: Key, keys: set<Key>, defs: seq<Field>, bundle: Json, key: string)
    requires IsBundle(c, root, keys, defs, bundle)
    ensures Get(bundle.fields, "$schema") == Some(Str("https://json-schema.org/draft/2020-12/schema"))
    ensures keys != {} ==> Get(bundle.fields, "$defs") == Some(Obj(defs))
    ensures key != "$schema" && (key != "$defs" || keys == {}) ==>
              Get(bundle.fields, key) == Get(RewrittenObject(root.file, Definition(c, root).value.fields), key)
  {
    hide RewrittenObject;
    var fields := RewrittenObject(root.file, Definition(c, root).value.fields);
    if defs != [] {
      assert defs[0] in defs;
    }
    if keys != {} {
      var k :| k in keys;
      assert Entry(c, k) in defs;
    }
    GetPut(fields, "$defs", Obj(defs), key);
    var listed := if defs == [] then fields else Put(fields, "$defs", Obj(defs));
    GetPut(listed, "$schema", DIALECT, key);
    GetPut(listed, "$schema", DIALECT, "$defs");
  }
}

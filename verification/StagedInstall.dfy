/** `generate_provider_ready_contract` and `verify_provider_ready_assets` of
    src/aar/provider_ready_contract_generator.py on a file tree, with a fault at any operation. */
module StagedInstall {
  import opened JsonValues
  import opened FileTree

  // The assets

  /** One generated file: the schema bundle, or a file at a path below the fixture directory. */
  datatype Asset = Schema(raw: Bytes) | Fixture(path: Path, raw: Bytes)

  const VALID: string := "valid"
  const INVALID: string := "invalid"
  const SCHEMA_DIR: Path := ["schemas"]
  const SCHEMA_TARGET: Path := ["schemas", "aar-provider-ready-schemas-v1.json"]
  const FIXTURE_DIR: Path := ["tests", "fixtures"]
  const FIXTURE_TARGET: Path := ["tests", "fixtures", "provider-ready"]
  const STAGED_SCHEMA: string := "schema.json"
  const STAGED_FIXTURE: string := "provider-ready"

  predicate IsCase(name: string) {
    name == VALID || name == INVALID
  }

  predicate AssetPlaced(a: Asset) {
    a.Fixture? ==> (|a.path| == 1 && !IsCase(a.path[0])) || (|a.path| == 2 && IsCase(a.path[0]))
  }

  /** The shape of the generated set: one schema bundle, and fixtures at the top or in one of the two
      case directories, both of which are used. */
  predicate AssetsOk(assets: seq<Asset>) {
    && (forall i :: 0 <= i < |assets| ==> AssetPlaced(assets[i]))
    && SchemaIn(assets).Some?
    && NodeIn(assets, [VALID]).Some? && NodeIn(assets, [INVALID]).Some?
  }

  function SchemaIn(assets: seq<Asset>): Option<Bytes> {
    if assets == [] then None
    else
      var last := assets[|assets| - 1];
      if last.Schema? then Some(last.raw) else SchemaIn(assets[..|assets| - 1])
  }

  /** What the assets put at a path below the fixture directory. */
  function NodeIn(assets: seq<Asset>, rel: Path): Option<Node> {
    if rel == [] then Some(Dir)
    else if assets == [] then None
    else
      var last := assets[|assets| - 1];
      if last.Fixture? && last.path == rel then Some(File(last.raw))
      else if last.Fixture? && last.path != [] && Parent(last.path) == rel then Some(Dir)
      else NodeIn(assets[..|assets| - 1], rel)
  }

  lemma {:induction false} NodeKinds(assets: seq<Asset>, rel: Path)
    requires forall i :: 0 <= i < |assets| ==> AssetPlaced(assets[i])
    ensures |rel| == 1 && IsCase(rel[0]) && NodeIn(assets, rel).Some? ==> NodeIn(assets, rel).value.Dir?
    ensures rel != [] && !(|rel| == 1 && IsCase(rel[0])) && NodeIn(assets, rel).Some? ==>
              NodeIn(assets, rel).value.File?
    ensures NodeIn(assets, rel).Some? ==>
              |rel| <= 2 && (|rel| == 2 ==> IsCase(rel[0])) && !NodeIn(assets, rel).value.Link?
    decreases |assets|
  {
    if assets != [] {
      assert AssetPlaced(assets[|assets| - 1]);
      NodeKinds(assets[..|assets| - 1], rel);
    }
  }

  lemma NodeInNext(assets: seq<Asset>, a: Asset, rel: Path)
    ensures NodeIn(assets + [a], rel) ==
            if rel == [] then Some(Dir)
            else if a.Fixture? && a.path == rel then Some(File(a.raw))
            else if a.Fixture? && a.path != [] && Parent(a.path) == rel then Some(Dir)
            else NodeIn(assets, rel)
    ensures SchemaIn(assets + [a]) == if a.Schema? then Some(a.raw) else SchemaIn(assets)
  {
    assert (assets + [a])[..|assets|] == assets;
  }

  // What success and verification mean

  /** The tree holds exactly the assets at the two targets. */
  ghost predicate Exact(t: Tree, assets: seq<Asset>) {
    && SCHEMA_TARGET in t && SchemaIn(assets).Some? && t[SCHEMA_TARGET] == File(SchemaIn(assets).value)
    && forall rel: Path :: ExactAt(t, assets, rel)
  }

  predicate ExactAt(t: Tree, assets: seq<Asset>, rel: Path) {
    && (FIXTURE_TARGET + rel in t <==> NodeIn(assets, rel).Some?)
    && (FIXTURE_TARGET + rel in t ==> t[FIXTURE_TARGET + rel] == NodeIn(assets, rel).value)
  }

  predicate IsAddable(q: Path) {
    q == SCHEMA_DIR || q == ["tests"] || q == FIXTURE_DIR || q == SCHEMA_TARGET || Under(FIXTURE_TARGET, q)
  }

  /** Nothing old is changed or lost, and only the targets and their parents are new. */
  predicate OnlyAdds(before: Tree, after: Tree) {
    && (forall q :: q in before ==> q in after && after[q] == before[q])
    && (forall q :: q in after && q !in before ==> IsAddable(q))
  }

  // Preflight

  /** No entry of the directory is another spelling of the name. */
  predicate NoAlias(t: Tree, parent: Path, name: string, fold: string -> string) {
    forall q :: q in Children(t, parent) ==> fold(q[|parent|]) == fold(name) ==> q[|parent|] == name
  }

  predicate StepClear(t: Tree, target: Path, k: nat, fold: string -> string)
    requires k < |target|
  {
    && NoAlias(t, target[..k], target[k], fold)
    && (k + 1 < |target| && target[..k + 1] in t ==> t[target[..k + 1]].Dir?)
  }

  predicate TargetClear(t: Tree, target: Path, fold: string -> string) {
    target !in t && forall k :: 0 <= k < |target| ==> StepClear(t, target, k, fold)
  }

  predicate Clear(t: Tree, fold: string -> string) {
    TargetClear(t, SCHEMA_TARGET, fold) && TargetClear(t, FIXTURE_TARGET, fold)
  }

  // Faults

  /** What the fault raises: an ordinary exception, or one that `except Exception` does not catch. */
  datatype Stop = Error | Interrupt

  datatype Report = Installed | Refused | Raised | Interrupted

  function StagingOps(assets: seq<Asset>): nat {
    2 + 2 * |assets|
  }

  function MissingCount(t: Tree, p: Path): nat
    decreases |p|
  {
    if p == [] || p in t then 0 else 1 + MissingCount(t, Parent(p))
  }

  /** How many operations an undisturbed installation makes. */
  function TotalOps(t: Tree, assets: seq<Asset>): nat {
    StagingOps(assets) + MissingCount(t, SCHEMA_DIR) + MissingCount(t, FIXTURE_DIR) + 2
  }

  // What staging leaves

  predicate SameAt(before: Tree, after: Tree, q: Path) {
    (q in after <==> q in before) && (q in before ==> after[q] == before[q])
  }

  ghost predicate SameOutside(before: Tree, after: Tree, p: Path) {
    forall q :: !Under(p, q) ==> SameAt(before, after, q)
  }

  function FixtureOf(stage: string): Path {
    [stage, STAGED_FIXTURE]
  }

  function SchemaOf(stage: string): Path {
    [stage, STAGED_SCHEMA]
  }

  predicate StagedAt(t: Tree, stage: string, assets: seq<Asset>, rel: Path) {
    && (FixtureOf(stage) + rel in t <==> NodeIn(assets, rel).Some?)
    && (FixtureOf(stage) + rel in t ==> t[FixtureOf(stage) + rel] == NodeIn(assets, rel).value)
  }

  /** The stage holds exactly these assets so far. */
  ghost predicate Staged(t: Tree, stage: string, assets: seq<Asset>) {
    && IsDir(t, [stage])
    && (SchemaOf(stage) in t <==> SchemaIn(assets).Some?)
    && (SchemaOf(stage) in t ==> t[SchemaOf(stage)] == File(SchemaIn(assets).value))
    && (forall q :: q in t && Under([stage], q) ==> q == [stage] || q == SchemaOf(stage) || Under(FixtureOf(stage), q))
    && forall rel: Path :: StagedAt(t, stage, assets, rel)
  }

  lemma NamesDiffer()
    ensures STAGED_SCHEMA != STAGED_FIXTURE && "schemas" != "tests"
    ensures VALID != INVALID
  {
    assert |STAGED_SCHEMA| == 11 && |STAGED_FIXTURE| == 14 && |"schemas"| == 7 && |"tests"| == 5;
    assert |VALID| == 5 && |INVALID| == 7;
  }

  class Disk {
    var tree: Tree
    var clock: nat
    const at: nat
    const kind: Stop
    const partial: Bytes
    const fold: string -> string

    /** A disk whose operation number `at` fails with `kind`; a write that fails leaves `partial`. */
    constructor (tree: Tree, at: nat, kind: Stop, partial: Bytes, fold: string -> string)
      ensures this.tree == tree && clock == 0 && this.at == at && this.kind == kind && this.fold == fold
    {
      this.tree, this.clock, this.at, this.kind, this.partial, this.fold := tree, 0, at, kind, partial, fold;
    }

    // Operations

    method MakeDirectory(p: Path) returns (stop: Option<Stop>)
      requires WellFormed(tree) && p != []
      modifies `tree, `clock
      ensures WellFormed(tree) && clock == old(clock) + 1
      ensures stop.None? <==> old(clock) != at && p !in old(tree) && IsDir(old(tree), Parent(p))
      ensures tree == if stop.None? then old(tree)[p := Dir] else old(tree)
      ensures stop.Some? && old(clock) != at ==> stop == Some(Error)
      ensures stop.Some? && old(clock) == at ==> stop == Some(kind)
    {
      clock := clock + 1;
      if clock - 1 == at {
        return Some(kind);
      }
      if p in tree || !IsDir(tree, Parent(p)) {
        return Some(Error);
      }
      tree := tree[p := Dir];
      return None;
    }

    /** `path.mkdir(parents=True, exist_ok=True)` on a path whose parent is there. */
    method AllowDirectory(p: Path) returns (stop: Option<Stop>)
      requires WellFormed(tree) && p != [] && IsDir(tree, Parent(p)) && (p in tree ==> tree[p].Dir?)
      modifies `tree, `clock
      ensures WellFormed(tree) && clock == old(clock) + 1
      ensures stop == if old(clock) == at then Some(kind) else None
      ensures tree == if stop.None? then old(tree)[p := Dir] else old(tree)
    {
      clock := clock + 1;
      if clock - 1 == at {
        return Some(kind);
      }
      if p in tree {
        assert tree[p := Dir] == tree;
      }
      tree := tree[p := Dir];
      return None;
    }

    method Write(p: Path, raw: Bytes) returns (stop: Option<Stop>)
      requires WellFormed(tree) && p != [] && IsDir(tree, Parent(p)) && !IsDir(tree, p)
      modifies `tree, `clock
      ensures WellFormed(tree) && clock == old(clock) + 1
      ensures stop == if old(clock) == at then Some(kind) else None
      ensures tree == old(tree)[p := File(if stop.None? then raw else partial)]
    {
      clock := clock + 1;
      LeafHasNothingBelow(tree, p);
      if clock - 1 == at {
        tree := tree[p := File(partial)];
        return Some(kind);
      }
      tree := tree[p := File(raw)];
      return None;
    }

    method Rename(a: Path, b: Path) returns (stop: Option<Stop>)
      requires WellFormed(tree) && a != [] && b != [] && a in tree && !Under(a, b)
      modifies `tree, `clock
      ensures WellFormed(tree) && clock == old(clock) + 1
      ensures stop.None? <==> old(clock) != at && b !in old(tree) && IsDir(old(tree), Parent(b))
      ensures tree == if stop.None? then Moved(old(tree), a, b) else old(tree)
      ensures stop.Some? && old(clock) != at ==> stop == Some(Error)
      ensures stop.Some? && old(clock) == at ==> stop == Some(kind)
    {
      clock := clock + 1;
      if clock - 1 == at {
        return Some(kind);
      }
      if b in tree || !IsDir(tree, Parent(b)) {
        return Some(Error);
      }
      MovedIsWellFormed(tree, a, b);
      tree := Moved(tree, a, b);
      return None;
    }

    // Cleanup, which does not fail

    /** `_remove_owned`. */
    method RemoveOwned(p: Path)
      requires WellFormed(tree) && p != []
      modifies `tree
      ensures WellFormed(tree) && tree == Without(old(tree), p)
      decreases Below(tree, p)
    {
      WithoutIsWellFormed(tree, p);
      if !IsDir(tree, p) {
        LeafHasNothingBelow(tree, p);
        tree := Without(tree, p);
        return;
      }
      ghost var before := tree;
      var children := Children(tree, p);
      ghost var gone: set<Path> := {};
      while children != {}
        invariant WellFormed(tree) && children + gone == Children(before, p)
        invariant tree == WithoutAll(before, gone)
      {
        var child :| child in children;
        BelowShrinks(before, tree, p, child, gone);
        RemoveOwned(child);
        children, gone := children - {child}, gone + {child};
      }
      tree := Without(tree, p);
    }
  }

  // Removing a directory

  function WithoutAll(t: Tree, tops: set<Path>): Tree {
    map q | q in t && !UnderSome(tops, q) :: t[q]
  }

  predicate UnderSome(tops: set<Path>, q: Path) {
    exists c :: c in tops && Under(c, q)
  }

  lemma BelowShrinks(before: Tree, now: Tree, p: Path, child: Path, gone: set<Path>)
    requires child in Children(before, p) && now == WithoutAll(before, gone) && p in before
    ensures Below(now, child) < Below(before, p)
  {
    forall q | q in Below(now, child) ensures q in Below(before, p) {
    }
    assert p in Below(before, p) && p !in Below(now, child);
  }

}

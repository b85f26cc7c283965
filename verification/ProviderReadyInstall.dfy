/** The installation itself: staging, parents, the two renames and the cleanup, step by step as
    src/aar/provider_ready_contract_generator.py performs them. */
module ProviderReadyInstall {
  import opened JsonValues
  import opened FileTree
  import opened StagedInstall

  // Staging

  function Destination(stage: string, a: Asset): Path {
    if a.Schema? then SchemaOf(stage) else FixtureOf(stage) + a.path
  }

  /** The parent of a staged file is the stage, the staged fixture directory or a case directory. */
  lemma DestinationParent(stage: string, a: Asset)
    requires AssetPlaced(a)
    ensures Destination(stage, a) != [] && Parent(Destination(stage, a)) != []
    ensures a.Schema? ==> Parent(Destination(stage, a)) == [stage]
    ensures a.Fixture? ==> Parent(Destination(stage, a)) == FixtureOf(stage) + Parent(a.path)
    ensures Under([stage], Destination(stage, a)) && Under([stage], Parent(Destination(stage, a)))
  {
    if a.Fixture? {
      assert Parent(FixtureOf(stage) + a.path) == FixtureOf(stage) + Parent(a.path);
    }
  }

  lemma StagedRoot(t: Tree, stage: string, done: seq<Asset>)
    requires Staged(t, stage, done)
    ensures IsDir(t, [stage]) && IsDir(t, FixtureOf(stage))
  {
    assert StagedAt(t, stage, done, []);
    assert FixtureOf(stage) + [] == FixtureOf(stage);
  }

  /** The parent of the next staged file can be made or is a directory. */
  lemma ParentReady(t: Tree, stage: string, done: seq<Asset>, a: Asset)
    requires WellFormed(t) && Staged(t, stage, done) && AssetPlaced(a)
    requires forall i :: 0 <= i < |done| ==> AssetPlaced(done[i])
    ensures var p := Parent(Destination(stage, a));
      && p != [] && IsDir(t, Parent(p)) && (p in t ==> t[p].Dir?)
  {
    hide Staged, NodeIn, AssetPlaced;
    DestinationParent(stage, a);
    StagedRoot(t, stage, done);
    if a.Fixture? {
      PlacedParent(a);
      var rel := Parent(a.path);
      if rel == [] {
        assert FixtureOf(stage) + rel == FixtureOf(stage);
        assert Parent(FixtureOf(stage)) == [stage];
      } else {
        assert Parent(FixtureOf(stage) + rel) == FixtureOf(stage);
        StagedRel(t, stage, done, rel);
        NodeKinds(done, rel);
      }
    }
  }

  lemma PlacedParent(a: Asset)
    requires a.Fixture? && AssetPlaced(a)
    ensures a.path != [] && (Parent(a.path) == [] || (|Parent(a.path)| == 1 && IsCase(Parent(a.path)[0])))
  {
  }

  lemma StagedRel(t: Tree, stage: string, done: seq<Asset>, rel: Path)
    requires Staged(t, stage, done)
    ensures StagedAt(t, stage, done, rel)
  {
  }

  /** The next staged file does not fall on a directory. */
  lemma FileReady(t: Tree, stage: string, done: seq<Asset>, a: Asset)
    requires WellFormed(t) && Staged(t, stage, done) && AssetPlaced(a)
    requires forall i :: 0 <= i < |done| ==> AssetPlaced(done[i])
    ensures var dest := Destination(stage, a);
      && Parent(dest) != [] && !IsDir(t[Parent(dest) := Dir], dest)
  {
    hide NodeIn;
    DestinationParent(stage, a);
    NamesDiffer();
    if a.Fixture? {
      StagedRel(t, stage, done, a.path);
      NodeKinds(done, a.path);
    }
  }

  lemma StagedNextAt(t: Tree, stage: string, done: seq<Asset>, a: Asset, rel: Path)
    requires StagedAt(t, stage, done, rel) && AssetPlaced(a)
    ensures var dest := Destination(stage, a);
      && Parent(dest) != []
      && StagedAt(t[Parent(dest) := Dir][dest := File(a.raw)], stage, done + [a], rel)
  {
    hide NodeIn, SchemaIn;
    DestinationParent(stage, a);
    NodeInNext(done, a, rel);
    StagedPathsDiffer(stage, a, rel);
    if rel == [] {
      assert FixtureOf(stage) + rel == FixtureOf(stage);
      NodeAtTop(done);
    }
  }

  lemma NodeAtTop(done: seq<Asset>)
    ensures NodeIn(done, []) == Some(Dir)
  {
  }

  lemma StagedNext(t: Tree, stage: string, done: seq<Asset>, a: Asset)
    requires Staged(t, stage, done) && AssetPlaced(a)
    ensures var dest := Destination(stage, a);
      && Parent(dest) != []
      && Staged(t[Parent(dest) := Dir][dest := File(a.raw)], stage, done + [a])
  {
    hide NodeIn, SchemaIn;
    DestinationParent(stage, a);
    NamesDiffer();
    var dest := Destination(stage, a);
    var after := t[Parent(dest) := Dir][dest := File(a.raw)];
    NodeInNext(done, a, []);
    forall rel: Path ensures StagedAt(after, stage, done + [a], rel) {
      StagedNextAt(t, stage, done, a, rel);
    }
    forall q | q in after && Under([stage], q)
      ensures q == [stage] || q == SchemaOf(stage) || Under(FixtureOf(stage), q)
    {
      if a.Fixture? {
        assert (FixtureOf(stage) + a.path)[..2] == FixtureOf(stage);
        assert (FixtureOf(stage) + Parent(a.path))[..2] == FixtureOf(stage);
      }
    }
  }

  /** When a staged path below the fixture directory is the next destination, or its parent. */
  lemma StagedPathsDiffer(stage: string, a: Asset, rel: Path)
    requires AssetPlaced(a)
    ensures a.Schema? ==> FixtureOf(stage) + rel != SchemaOf(stage) && FixtureOf(stage) + rel != [stage]
    ensures a.Fixture? ==> (FixtureOf(stage) + rel == FixtureOf(stage) + a.path <==> rel == a.path)
    ensures a.Fixture? ==> (FixtureOf(stage) + rel == FixtureOf(stage) + Parent(a.path) <==> rel == Parent(a.path))
  {
    NamesDiffer();
    assert (FixtureOf(stage) + rel)[1] == STAGED_FIXTURE;
    assert (FixtureOf(stage) + rel)[2..] == rel;
    if a.Fixture? {
      assert (FixtureOf(stage) + a.path)[2..] == a.path;
      assert (FixtureOf(stage) + Parent(a.path))[2..] == Parent(a.path);
    }
  }

  lemma StagedFirst(t: Tree, stage: string)
    requires WellFormed(t) && [stage] !in t
    ensures Staged(t[[stage] := Dir][FixtureOf(stage) := Dir], stage, [])
  {
    NamesDiffer();
    LeafHasNothingBelow(t, [stage]);
    var after := t[[stage] := Dir][FixtureOf(stage) := Dir];
    forall rel: Path ensures StagedAt(after, stage, [], rel) {
      var q := FixtureOf(stage) + rel;
      assert q[0] == stage && |q| >= 2;
      assert rel == [] ==> q == FixtureOf(stage);
      assert rel != [] ==> q !in t;
    }
    assert Under([stage], SchemaOf(stage));
  }

  /** One asset: its directory, then its bytes. */
  method StageOne(d: Disk, stage: string, done: seq<Asset>, a: Asset) returns (stop: Option<Stop>)
    requires WellFormed(d.tree) && Staged(d.tree, stage, done) && AssetPlaced(a)
    requires forall i :: 0 <= i < |done| ==> AssetPlaced(done[i])
    modifies d`tree, d`clock
    ensures WellFormed(d.tree) && SameOutside(old(d.tree), d.tree, [stage])
    ensures stop == if d.at == old(d.clock) || d.at == old(d.clock) + 1 then Some(d.kind) else None
    ensures stop.None? ==> Staged(d.tree, stage, done + [a]) && d.clock == old(d.clock) + 2
  {
    hide Staged, NodeIn, AssetPlaced, SchemaIn, Destination;
    var dest := Destination(stage, a);
    DestinationParent(stage, a);
    ParentReady(d.tree, stage, done, a);
    FileReady(d.tree, stage, done, a);
    StagedNext(d.tree, stage, done, a);
    stop := d.AllowDirectory(Parent(dest));
    if stop.Some? {
      return;
    }
    stop := d.Write(dest, a.raw);
  }

  lemma SameOutsideComposes(a: Tree, b: Tree, c: Tree, p: Path)
    requires SameOutside(a, b, p) && SameOutside(b, c, p)
    ensures SameOutside(a, c, p)
  {
    forall q | !Under(p, q) ensures SameAt(a, c, q) {
      assert SameAt(a, b, q) && SameAt(b, c, q);
    }
  }

  /** The stage and the fixture directory inside it. */
  method StageRoot(d: Disk, stage: string) returns (stop: Option<Stop>)
    requires WellFormed(d.tree) && [stage] !in d.tree
    modifies d`tree, d`clock
    ensures WellFormed(d.tree) && SameOutside(old(d.tree), d.tree, [stage])
    ensures stop == if d.at == old(d.clock) || d.at == old(d.clock) + 1 then Some(d.kind) else None
    ensures stop.None? ==> Staged(d.tree, stage, []) && d.clock == old(d.clock) + 2
  {
    hide Staged;
    StagedFirst(d.tree, stage);
    LeafHasNothingBelow(d.tree, [stage]);
    assert Parent([stage]) == [] && Parent(FixtureOf(stage)) == [stage];
    assert Under([stage], FixtureOf(stage));
    stop := d.MakeDirectory([stage]);
    if stop.Some? {
      return;
    }
    stop := d.MakeDirectory(FixtureOf(stage));
  }

  /** `mkdtemp`, the staged fixture directory and one write per asset. */
  method StageAssets(d: Disk, stage: string, assets: seq<Asset>) returns (stop: Option<Stop>)
    requires WellFormed(d.tree) && [stage] !in d.tree && d.clock == 0
    requires forall i :: 0 <= i < |assets| ==> AssetPlaced(assets[i])
    modifies d`tree, d`clock
    ensures WellFormed(d.tree) && SameOutside(old(d.tree), d.tree, [stage])
    ensures stop == if d.at < StagingOps(assets) then Some(d.kind) else None
    ensures stop.None? ==> Staged(d.tree, stage, assets) && d.clock == StagingOps(assets)
  {
    hide Staged, SameOutside, AssetPlaced, WellFormed;
    stop := StageRoot(d, stage);
    if stop.Some? {
      return;
    }
    assert assets[..0] == [];
    var i := 0;
    while i < |assets|
      invariant 0 <= i <= |assets| && d.clock == 2 + 2 * i <= d.at && stop.None?
      invariant WellFormed(d.tree) && SameOutside(old(d.tree), d.tree, [stage])
      invariant Staged(d.tree, stage, assets[..i])
    {
      assert assets[..i + 1] == assets[..i] + [assets[i]];
      ghost var before := d.tree;
      stop := StageOne(d, stage, assets[..i], assets[i]);
      SameOutsideComposes(old(d.tree), before, d.tree, [stage]);
      if stop.Some? {
        return;
      }
      i := i + 1;
    }
    assert assets[..|assets|] == assets;
  }

  // Parents

  /** The absent directories on the way to `p`, outermost first. */
  function MissingDirs(t: Tree, p: Path): seq<Path>
    decreases |p|
  {
    if p == [] || p in t then [] else MissingDirs(t, Parent(p)) + [p]
  }

  function AddDirs(t: Tree, dirs: seq<Path>): Tree {
    if dirs == [] then t else AddDirs(t, dirs[..|dirs| - 1])[dirs[|dirs| - 1] := Dir]
  }

  lemma {:induction false} MissingDirsAre(t: Tree, p: Path)
    requires WellFormed(t) && forall k :: 0 <= k <= |p| && p[..k] in t ==> t[p[..k]].Dir?
    ensures var m := MissingDirs(t, p);
      && |m| == MissingCount(t, p) <= |p|
      && (forall i :: 0 <= i < |m| ==> m[i] == p[..|p| - |m| + i + 1] && m[i] !in t)
      && IsDir(t, p[..|p| - |m|])
    decreases |p|
  {
    if p != [] && p !in t {
      forall k | 0 <= k <= |Parent(p)| ensures Parent(p)[..k] == p[..k] {
      }
      MissingDirsAre(t, Parent(p));
    } else {
      assert p[..|p|] == p;
    }
  }

  lemma AddDirsNext(t: Tree, dirs: seq<Path>, k: nat)
    requires k < |dirs|
    ensures AddDirs(t, dirs[..k + 1]) == AddDirs(t, dirs[..k])[dirs[k] := Dir]
  {
    assert dirs[..k + 1][..k] == dirs[..k];
  }

  lemma {:induction false} AddDirsAt(t: Tree, dirs: seq<Path>, q: Path)
    ensures q in AddDirs(t, dirs) <==> q in t || q in dirs
    ensures q in AddDirs(t, dirs) ==> AddDirs(t, dirs)[q] == if q in dirs then Dir else t[q]
    decreases |dirs|
  {
    if dirs != [] {
      AddDirsAt(t, dirs[..|dirs| - 1], q);
      assert dirs == dirs[..|dirs| - 1] + [dirs[|dirs| - 1]];
    }
  }

  /** The walk up from `path` to the first directory that is there. */
  method FindMissing(t: Tree, path: Path) returns (missing: seq<Path>)
    requires WellFormed(t) && forall k :: 0 <= k <= |path| && path[..k] in t ==> t[path[..k]].Dir?
    ensures missing == MissingDirs(t, path)
  {
    MissingDirsAre(t, path);
    missing := [];
    var current := path;
    while current != [] && current !in t
      invariant MissingDirs(t, path) == MissingDirs(t, current) + missing
      decreases |current|
    {
      missing := [current] + missing;
      current := Parent(current);
    }
  }

  /** `_ensure_parent`; `made` lists the missing directories it got to make. */
  method EnsureParent(d: Disk, path: Path) returns (stop: Option<Stop>, made: seq<Path>)
    requires WellFormed(d.tree) && forall k :: 0 <= k <= |path| && path[..k] in d.tree ==> d.tree[path[..k]].Dir?
    modifies d`tree, d`clock
    ensures WellFormed(d.tree)
    ensures var m := MissingDirs(old(d.tree), path);
      && |made| <= |m| && made == m[..|made|] && d.tree == AddDirs(old(d.tree), made)
      && (if stop.None? then made == m && d.clock == old(d.clock) + |m|
          else stop == Some(d.kind) && |made| < |m| && d.at == old(d.clock) + |made|)
      && (stop.None? <==> !(old(d.clock) <= d.at < old(d.clock) + |m|))
  {
    hide MissingDirs, AddDirs, WellFormed;
    MissingDirsAre(d.tree, path);
    ghost var before := d.tree;
    var missing := FindMissing(d.tree, path);
    made, stop := [], None;
    NoDirs(before);
    while |made| < |missing|
      invariant |made| <= |missing| && made == missing[..|made|] && stop.None? && WellFormed(d.tree)
      invariant d.tree == AddDirs(before, made) && d.clock == old(d.clock) + |made|
      invariant !(old(d.clock) <= d.at < old(d.clock) + |made|)
    {
      NextDirReady(before, path, |made|);
      AddDirsNext(before, missing, |made|);
      stop := d.MakeDirectory(missing[|made|]);
      if stop.Some? {
        return;
      }
      made := made + [missing[|made|]];
    }
  }

  lemma NoDirs(t: Tree)
    ensures AddDirs(t, []) == t
  {
  }

  /** The next missing directory is absent, and its parent is there by now. */
  lemma NextDirReady(t: Tree, path: Path, k: nat)
    requires WellFormed(t) && forall k :: 0 <= k <= |path| && path[..k] in t ==> t[path[..k]].Dir?
    requires k < |MissingDirs(t, path)|
    ensures var m := MissingDirs(t, path); var now := AddDirs(t, m[..k]);
      m[k] != [] && m[k] !in now && IsDir(now, Parent(m[k]))
  {
    MissingDirsAre(t, path);
    var m := MissingDirs(t, path);
    var parent := path[..|path| - |m| + k];
    assert Parent(m[k]) == parent;
    AbsentStill(t, m, k);
    AddDirsAt(t, m[..k], parent);
    if k > 0 {
      assert m[..k][k - 1] == parent;
    }
  }

  lemma AbsentStill(t: Tree, m: seq<Path>, k: nat)
    requires k < |m| && m[k] !in t
    requires forall i, j :: 0 <= i < j < |m| ==> |m[i]| < |m[j]|
    ensures m[k] !in AddDirs(t, m[..k])
  {
    AddDirsAt(t, m[..k], m[k]);
    forall i | 0 <= i < k ensures m[..k][i] != m[k] {
      assert |m[i]| < |m[k]|;
    }
  }

  // What is new so far

  predicate UnderAny(tops: seq<Path>, q: Path) {
    exists i :: 0 <= i < |tops| && Under(tops[i], q)
  }

  predicate Explained(before: Tree, stage: string, created: seq<Path>, installed: seq<Path>, q: Path) {
    q in before || Under([stage], q) || q in created || UnderAny(installed, q)
  }

  /** The old tree is all there, and everything new is in the stage, a made parent or a target. */
  predicate Laid(before: Tree, t: Tree, stage: string, created: seq<Path>, installed: seq<Path>) {
    && (forall q :: q in before ==> q in t && t[q] == before[q])
    && (forall q :: q in t ==> Explained(before, stage, created, installed, q))
    && (forall i :: 0 <= i < |created| && created[i] in t ==> t[created[i]].Dir?)
  }

  predicate NewOutside(before: Tree, stage: string, p: Path) {
    p != [] && p !in before && !Under([stage], p)
  }

  /** What was made and installed was not there before, and no parent comes after its child. */
  predicate AllNew(before: Tree, stage: string, created: seq<Path>, installed: seq<Path>) {
    && [stage] !in before
    && (forall i :: 0 <= i < |created| ==> NewOutside(before, stage, created[i]))
    && (forall i :: 0 <= i < |installed| ==> NewOutside(before, stage, installed[i]))
    && (forall i, j :: 0 <= i < j < |created| ==> !Under(created[j], created[i]))
  }

  lemma OldIsNotBelowNew(before: Tree, p: Path, q: Path)
    requires WellFormed(before) && p !in before && q in before
    ensures !Under(p, q)
  {
    if Under(p, q) {
      AncestorOrSelf(before, p, q);
    }
  }

  lemma LaidAfterRemoval(before: Tree, t: Tree, stage: string, created: seq<Path>, installed: seq<Path>)
    requires WellFormed(before) && installed != [] && AllNew(before, stage, created, installed)
    requires Laid(before, t, stage, created, installed)
    ensures Laid(before, Without(t, installed[|installed| - 1]), stage, created, installed[..|installed| - 1])
  {
    var n := |installed| - 1;
    var after := Without(t, installed[n]);
    assert NewOutside(before, stage, installed[n]);
    forall q | q in before ensures q in after && after[q] == before[q] {
      OldIsNotBelowNew(before, installed[n], q);
    }
    forall q | q in after ensures Explained(before, stage, created, installed[..n], q) {
      assert Explained(before, stage, created, installed, q);
      if UnderAny(installed, q) {
        var i :| 0 <= i < |installed| && Under(installed[i], q);
        assert installed[..n][i] == installed[i];
      }
    }
  }

  method RemoveInstalled(d: Disk, ghost before: Tree, stage: string, created: seq<Path>, installed: seq<Path>)
    requires WellFormed(before) && WellFormed(d.tree) && AllNew(before, stage, created, installed)
    requires Laid(before, d.tree, stage, created, installed)
    modifies d`tree
    ensures WellFormed(d.tree) && Laid(before, d.tree, stage, created, [])
  {
    hide Laid, WellFormed;
    var n := |installed|;
    assert installed[..n] == installed;
    while n > 0
      invariant 0 <= n <= |installed| && WellFormed(d.tree)
      invariant Laid(before, d.tree, stage, created, installed[..n])
    {
      assert NewOutside(before, stage, installed[n - 1]);
      assert installed[..n][..n - 1] == installed[..n - 1];
      LaidAfterRemoval(before, d.tree, stage, created, installed[..n]);
      d.RemoveOwned(installed[n - 1]);
      n := n - 1;
    }
    assert installed[..0] == [];
  }

  /** The last directory made is empty once the targets and the later ones are gone. */
  lemma LastMadeIsEmpty(before: Tree, t: Tree, stage: string, created: seq<Path>)
    requires WellFormed(before) && WellFormed(t) && created != [] && AllNew(before, stage, created, [])
    requires Laid(before, t, stage, created, [])
    ensures forall q :: q in t && Under(created[|created| - 1], q) ==> q == created[|created| - 1]
  {
    var top := created[|created| - 1];
    assert NewOutside(before, stage, top);
    forall q | q in t && Under(top, q) ensures q == top {
      assert Explained(before, stage, created, [], q);
      if q in before {
        OldIsNotBelowNew(before, top, q);
      }
    }
  }

  lemma LaidAfterRmdir(before: Tree, t: Tree, stage: string, created: seq<Path>)
    requires WellFormed(before) && WellFormed(t) && created != [] && AllNew(before, stage, created, [])
    requires Laid(before, t, stage, created, [])
    ensures Laid(before, Without(t, created[|created| - 1]), stage, created[..|created| - 1], [])
  {
    var n := |created| - 1;
    var after := Without(t, created[n]);
    assert NewOutside(before, stage, created[n]);
    forall q | q in before ensures q in after && after[q] == before[q] {
      OldIsNotBelowNew(before, created[n], q);
    }
    forall q | q in after ensures Explained(before, stage, created[..n], [], q) {
      assert Explained(before, stage, created, [], q);
      if q in created {
        var i :| 0 <= i < |created| && created[i] == q;
        assert Under(created[i], q);
        assert created[..n][i] == q;
      }
    }
  }

  method RemoveCreated(d: Disk, ghost before: Tree, stage: string, created: seq<Path>)
    requires WellFormed(before) && WellFormed(d.tree) && AllNew(before, stage, created, [])
    requires Laid(before, d.tree, stage, created, [])
    modifies d`tree
    ensures WellFormed(d.tree) && Laid(before, d.tree, stage, [], [])
  {
    hide Laid, WellFormed, Without;
    var n := |created|;
    assert created[..n] == created;
    while n > 0
      invariant 0 <= n <= |created| && WellFormed(d.tree)
      invariant Laid(before, d.tree, stage, created[..n], [])
    {
      assert NewOutside(before, stage, created[n - 1]);
      assert created[..n][..n - 1] == created[..n - 1];
      LastMadeIsEmpty(before, d.tree, stage, created[..n]);
      LaidAfterRmdir(before, d.tree, stage, created[..n]);
      WithoutIsWellFormed(d.tree, created[n - 1]);
      if IsDir(d.tree, created[n - 1]) && Children(d.tree, created[n - 1]) == {} {
        d.tree := Without(d.tree, created[n - 1]);
      } else {
        NothingToRemove(before, d.tree, stage, created[..n]);
      }
      n := n - 1;
    }
    assert created[..0] == [];
  }

  /** A directory that is not there, or not empty, is none of ours. */
  lemma NothingToRemove(before: Tree, t: Tree, stage: string, created: seq<Path>)
    requires WellFormed(before) && WellFormed(t) && created != [] && AllNew(before, stage, created, [])
    requires Laid(before, t, stage, created, [])
    requires !IsDir(t, created[|created| - 1]) || Children(t, created[|created| - 1]) != {}
    ensures Without(t, created[|created| - 1]) == t
  {
    LastMadeIsEmpty(before, t, stage, created);
    LeafHasNothingBelow(t, created[|created| - 1]);
  }

  lemma CleanIsBefore(before: Tree, t: Tree, stage: string)
    requires WellFormed(before) && [stage] !in before && Laid(before, t, stage, [], [])
    ensures Without(t, [stage]) == before
  {
    forall q | q in before ensures q in Without(t, [stage]) {
      OldIsNotBelowNew(before, [stage], q);
    }
    forall q | q in Without(t, [stage]) ensures q in before {
      assert Explained(before, stage, [], [], q);
    }
  }

  /** With only the stage removed, the tree is as before exactly when nothing was made or installed. */
  lemma StageRemovedOnly(before: Tree, t: Tree, stage: string, created: seq<Path>, installed: seq<Path>)
    requires WellFormed(before) && AllNew(before, stage, created, installed)
    requires Laid(before, t, stage, created, installed)
    requires forall i :: 0 <= i < |created| ==> created[i] in t
    requires forall i :: 0 <= i < |installed| ==> installed[i] in t
    ensures Without(t, [stage]) == before <==> created == [] && installed == []
  {
    if created == [] && installed == [] {
      CleanIsBefore(before, t, stage);
    } else {
      var p := if created != [] then created[0] else installed[0];
      assert NewOutside(before, stage, p);
      assert p in Without(t, [stage]);
    }
  }

  // The installation

  const TARGETS: seq<Path> := [SCHEMA_TARGET, FIXTURE_TARGET]

  /** What the preflight leaves to rely on: the targets are absent, and their ancestors that are
      there are directories. */
  predicate Installable(t: Tree) {
    && SCHEMA_TARGET !in t && FIXTURE_TARGET !in t
    && (SCHEMA_DIR in t ==> t[SCHEMA_DIR].Dir?)
    && (["tests"] in t ==> t[["tests"]].Dir?)
    && (FIXTURE_DIR in t ==> t[FIXTURE_DIR].Dir?)
  }

  lemma ClearIsInstallable(t: Tree, fold: string -> string)
    requires Clear(t, fold)
    ensures Installable(t)
  {
    assert StepClear(t, SCHEMA_TARGET, 0, fold) && SCHEMA_TARGET[..1] == SCHEMA_DIR;
    assert StepClear(t, FIXTURE_TARGET, 0, fold) && FIXTURE_TARGET[..1] == ["tests"];
    assert StepClear(t, FIXTURE_TARGET, 1, fold) && FIXTURE_TARGET[..2] == FIXTURE_DIR;
  }

  predicate StageName(stage: string) {
    stage != "schemas" && stage != "tests"
  }

  lemma {:induction false} MissingDirsSame(t: Tree, u: Tree, p: Path)
    requires forall k :: 0 < k <= |p| ==> (p[..k] in t <==> p[..k] in u)
    ensures MissingDirs(t, p) == MissingDirs(u, p)
    decreases |p|
  {
    if p != [] {
      assert p[..|p|] == p;
      forall k | 0 < k <= |Parent(p)| ensures Parent(p)[..k] in t <==> Parent(p)[..k] in u {
        assert Parent(p)[..k] == p[..k];
      }
      MissingDirsSame(t, u, Parent(p));
    }
  }

  /** The directories that may be missing on the way to the two targets. */
  lemma MissingOnTheWay(t: Tree)
    requires [] in t
    ensures MissingDirs(t, SCHEMA_DIR) == if SCHEMA_DIR in t then [] else [SCHEMA_DIR]
    ensures MissingDirs(t, FIXTURE_DIR) ==
            if FIXTURE_DIR in t then [] else if ["tests"] in t then [FIXTURE_DIR] else [["tests"], FIXTURE_DIR]
    ensures |MissingDirs(t, SCHEMA_DIR)| == MissingCount(t, SCHEMA_DIR)
    ensures |MissingDirs(t, FIXTURE_DIR)| == MissingCount(t, FIXTURE_DIR)
  {
    assert Parent(SCHEMA_DIR) == [] && Parent(FIXTURE_DIR) == ["tests"] && Parent(["tests"]) == [];
    assert MissingDirs(t, []) == [];
    assert MissingDirs(t, ["tests"]) == if ["tests"] in t then [] else [["tests"]];
  }
}

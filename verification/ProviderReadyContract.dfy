/** Installing and verifying the provider-ready contract: all or nothing, and exactly when not. */
module ProviderReadyContract {
  import opened JsonValues
  import opened FileTree
  import opened StagedInstall
  import opened ProviderReadyInstall

  // Parents and renames on the old tree

  lemma {:induction false} AddDirsConcat(t: Tree, a: seq<Path>, b: seq<Path>)
    ensures AddDirs(AddDirs(t, a), b) == AddDirs(t, a + b)
    decreases |b|
  {
    if b == [] {
      assert a + b == a;
    } else {
      AddDirsConcat(t, a, b[..|b| - 1]);
      assert (a + b)[..|a + b| - 1] == a + b[..|b| - 1];
    }
  }

  lemma StageIsNew(before: Tree, stage: string, q: Path)
    requires WellFormed(before) && [stage] !in before && q in before
    ensures !Under([stage], q)
  {
    OldIsNotBelowNew(before, [stage], q);
  }

  lemma LaidWithDirs(before: Tree, t: Tree, stage: string, dirs: seq<Path>)
    requires WellFormed(before) && SameOutside(before, t, [stage]) && AllNew(before, stage, dirs, [])
    ensures Laid(before, AddDirs(t, dirs), stage, dirs, [])
    ensures forall i :: 0 <= i < |dirs| ==> dirs[i] in AddDirs(t, dirs)
  {
    var after := AddDirs(t, dirs);
    forall q | q in before ensures q in after && after[q] == before[q] {
      AddDirsAt(t, dirs, q);
      StageIsNew(before, stage, q);
      assert SameAt(before, t, q);
      forall i | 0 <= i < |dirs| ensures dirs[i] != q {
        assert NewOutside(before, stage, dirs[i]);
      }
    }
    forall q | q in after ensures Explained(before, stage, dirs, [], q) {
      AddDirsAt(t, dirs, q);
      assert !Under([stage], q) ==> SameAt(before, t, q);
    }
    forall i | 0 <= i < |dirs| ensures dirs[i] in after && after[dirs[i]].Dir? {
      AddDirsAt(t, dirs, dirs[i]);
    }
  }

  /** Moving something out of the stage to a new place lays one more target. */
  lemma LaidAfterMove(before: Tree, t: Tree, stage: string, created: seq<Path>, installed: seq<Path>, a: Path, b: Path)
    requires WellFormed(before) && AllNew(before, stage, created, installed + [b])
    requires Laid(before, t, stage, created, installed) && Under([stage], a) && a in t
    requires forall i :: 0 <= i < |created| ==> !Under(b, created[i])
    ensures Laid(before, Moved(t, a, b), stage, created, installed + [b])
    ensures b in Moved(t, a, b)
    ensures forall q :: q in t && !Under([stage], q) ==> q in Moved(t, a, b)
  {
    hide Moved, WellFormed;
    var after := Moved(t, a, b);
    assert NewOutside(before, stage, (installed + [b])[|installed|]);
    forall q | q in t && !Under([stage], q) ensures q in after {
      MovedAt(t, a, b, q);
    }
    forall q | q in before ensures q in after && after[q] == before[q] {
      MovedAt(t, a, b, q);
      StageIsNew(before, stage, q);
      OldIsNotBelowNew(before, b, q);
    }
    forall q | q in after ensures Explained(before, stage, created, installed + [b], q) {
      MovedAt(t, a, b, q);
      MovedIsExplained(before, t, stage, created, installed, b, q);
    }
    forall i | 0 <= i < |created| && created[i] in after ensures after[created[i]].Dir? {
      MovedAt(t, a, b, created[i]);
    }
    MovedAt(t, a, b, b);
    assert b[|b|..] == [] && a + [] == a;
  }

  lemma MovedIsExplained(before: Tree, t: Tree, stage: string, created: seq<Path>, installed: seq<Path>, b: Path,
                         q: Path)
    requires Under(b, q) || (q in t && Laid(before, t, stage, created, installed))
    ensures Explained(before, stage, created, installed + [b], q)
  {
    var more := installed + [b];
    if Under(b, q) {
      assert Under(more[|installed|], q);
    } else {
      assert Explained(before, stage, created, installed, q);
      if UnderAny(installed, q) {
        var i :| 0 <= i < |installed| && Under(installed[i], q);
        assert Under(more[i], q);
      }
    }
  }

  predicate OnTheWay(p: Path) {
    p == SCHEMA_DIR || p == ["tests"] || p == FIXTURE_DIR
  }

  // The finished tree is exact

  lemma ElsewhereThanStage(stage: string, rel: Path)
    requires StageName(stage)
    ensures !Under([stage], SCHEMA_TARGET) && !Under([stage], FIXTURE_TARGET + rel)
    ensures !Under(SCHEMA_TARGET, FixtureOf(stage) + rel) && !Under(SchemaOf(stage), FixtureOf(stage) + rel)
    ensures !Under(FIXTURE_TARGET, SCHEMA_TARGET) && !Under(FixtureOf(stage), SCHEMA_TARGET)
    ensures !Under(SCHEMA_TARGET, FIXTURE_TARGET) && !Under(SCHEMA_TARGET, SchemaOf(stage))
    ensures forall p :: OnTheWay(p) ==> p != FixtureOf(stage) + rel && p != SchemaOf(stage) && !Under([stage], p)
  {
    NamesDiffer();
    assert (FIXTURE_TARGET + rel)[..1] == ["tests"];
    assert (FixtureOf(stage) + rel)[0] == stage && (FixtureOf(stage) + rel)[1] == STAGED_FIXTURE;
    assert SCHEMA_TARGET[0] == "schemas" && FIXTURE_TARGET[0] == "tests";
    assert SchemaOf(stage)[0] == stage && SchemaOf(stage)[1] == STAGED_SCHEMA;
    forall p | OnTheWay(p) ensures !Under([stage], p) && p[0] != stage {
    }
  }

  /** After the two renames and the removal of the stage, one path below the fixture directory. */
  lemma FinishedAt(t: Tree, mid: Tree, stage: string, assets: seq<Asset>, rel: Path)
    requires StageName(stage) && StagedAt(t, stage, assets, rel)
    requires WellFormed(mid) && FIXTURE_TARGET !in mid
    requires FixtureOf(stage) + rel in mid <==> FixtureOf(stage) + rel in t
    requires FixtureOf(stage) + rel in mid ==> mid[FixtureOf(stage) + rel] == t[FixtureOf(stage) + rel]
    ensures ExactAt(Without(Moved(mid, FixtureOf(stage), FIXTURE_TARGET), [stage]), assets, rel)
  {
    hide Moved, NodeIn;
    var q := FIXTURE_TARGET + rel;
    ElsewhereThanStage(stage, rel);
    assert Under(FIXTURE_TARGET, q) && q[|FIXTURE_TARGET|..] == rel;
    OldIsAbsent(mid, FIXTURE_TARGET, q);
    MovedAt(mid, FixtureOf(stage), FIXTURE_TARGET, q);
  }

  lemma OldIsAbsent(t: Tree, p: Path, q: Path)
    requires WellFormed(t) && p !in t && Under(p, q)
    ensures q !in t
  {
    if q in t {
      AncestorOrSelf(t, p, q);
    }
  }

  lemma FinishedIsExact(t: Tree, dirs: seq<Path>, mid: Tree, stage: string, assets: seq<Asset>)
    requires StageName(stage) && Staged(t, stage, assets) && SchemaIn(assets).Some?
    requires forall i :: 0 <= i < |dirs| ==> OnTheWay(dirs[i])
    requires mid == Moved(AddDirs(t, dirs), SchemaOf(stage), SCHEMA_TARGET)
    requires WellFormed(mid) && FIXTURE_TARGET !in mid
    ensures Exact(Without(Moved(mid, FixtureOf(stage), FIXTURE_TARGET), [stage]), assets)
  {
    hide Moved, NodeIn, SchemaIn, AddDirs, WellFormed;
    var after := Without(Moved(mid, FixtureOf(stage), FIXTURE_TARGET), [stage]);
    ElsewhereThanStage(stage, []);
    AddDirsAt(t, dirs, SchemaOf(stage));
    MovedAt(AddDirs(t, dirs), SchemaOf(stage), SCHEMA_TARGET, SCHEMA_TARGET);
    assert SCHEMA_TARGET[|SCHEMA_TARGET|..] == [] && SchemaOf(stage) + [] == SchemaOf(stage);
    MovedAt(mid, FixtureOf(stage), FIXTURE_TARGET, SCHEMA_TARGET);
    forall rel: Path ensures ExactAt(after, assets, rel) {
      StagedRel(t, stage, assets, rel);
      ElsewhereThanStage(stage, rel);
      AddDirsAt(t, dirs, FixtureOf(stage) + rel);
      MovedAt(AddDirs(t, dirs), SchemaOf(stage), SCHEMA_TARGET, FixtureOf(stage) + rel);
      FinishedAt(t, mid, stage, assets, rel);
    }
  }

  /** What is new in a finished tree is on the way to a target or below one. */
  lemma FinishedOnlyAdds(before: Tree, t: Tree, stage: string, created: seq<Path>, assets: seq<Asset>)
    requires WellFormed(before) && WellFormed(Without(t, [stage])) && AllNew(before, stage, created, TARGETS)
    requires Laid(before, t, stage, created, TARGETS)
    requires forall i :: 0 <= i < |created| ==> OnTheWay(created[i])
    requires Exact(Without(t, [stage]), assets)
    ensures OnlyAdds(before, Without(t, [stage]))
  {
    hide ExactAt, WellFormed;
    var after := Without(t, [stage]);
    forall q | q in before ensures q in after && after[q] == before[q] {
      StageIsNew(before, stage, q);
    }
    LeafHasNothingBelow(after, SCHEMA_TARGET);
    forall q | q in after && q !in before ensures IsAddable(q) {
      assert Explained(before, stage, created, TARGETS, q);
      if UnderAny(TARGETS, q) {
        var i :| 0 <= i < |TARGETS| && Under(TARGETS[i], q);
      }
    }
  }

  // The steps after staging

  /** What the steps after staging rely on: an old tree without targets, and a finished stage. */
  ghost predicate Ready(before: Tree, t: Tree, stage: string, assets: seq<Asset>) {
    && WellFormed(before) && Installable(before) && [stage] !in before && StageName(stage)
    && WellFormed(t) && SameOutside(before, t, [stage])
    && Staged(t, stage, assets) && SchemaIn(assets).Some?
  }

  /** Parents come before children, each at most once. */
  predicate InOrder(dirs: seq<Path>) {
    forall i, j :: 0 <= i < j < |dirs| ==> dirs[i] != dirs[j] && !(dirs[i] == FIXTURE_DIR && dirs[j] == ["tests"])
  }

  lemma WayInOrder(m: seq<Path>, n: seq<Path>, a: nat, b: nat)
    requires m == [] || m == [SCHEMA_DIR]
    requires n == [] || n == [FIXTURE_DIR] || n == [["tests"], FIXTURE_DIR]
    requires a <= |m| && b <= |n|
    ensures InOrder(m[..a] + n[..b])
    ensures forall i :: 0 <= i < |m[..a] + n[..b]| ==> OnTheWay((m[..a] + n[..b])[i])
  {
    NamesDiffer();
    assert SCHEMA_DIR[0] != FIXTURE_DIR[0];
  }

  lemma OnTheWayIsNew(before: Tree, stage: string, p: Path)
    requires StageName(stage) && OnTheWay(p) && p !in before
    ensures NewOutside(before, stage, p) && !Under(SCHEMA_TARGET, p) && !Under(FIXTURE_TARGET, p)
  {
    ElsewhereThanStage(stage, []);
  }

  lemma TargetsAreNew(before: Tree, stage: string)
    requires Installable(before) && StageName(stage)
    ensures NewOutside(before, stage, SCHEMA_TARGET) && NewOutside(before, stage, FIXTURE_TARGET)
  {
    ElsewhereThanStage(stage, []);
    assert FIXTURE_TARGET + [] == FIXTURE_TARGET;
  }

  /** Directories a step may make are those missing from the old tree, in order. */
  lemma MissingAreNew(before: Tree, stage: string, a: nat, b: nat)
    requires WellFormed(before) && Installable(before) && [stage] !in before && StageName(stage)
    requires a <= |MissingDirs(before, SCHEMA_DIR)| && b <= |MissingDirs(before, FIXTURE_DIR)|
    ensures var dirs := MissingDirs(before, SCHEMA_DIR)[..a] + MissingDirs(before, FIXTURE_DIR)[..b];
      && AllNew(before, stage, dirs, TARGETS) && AllNew(before, stage, dirs, [SCHEMA_TARGET])
      && AllNew(before, stage, dirs, [])
      && forall i :: 0 <= i < |dirs| ==>
           OnTheWay(dirs[i]) && !Under(SCHEMA_TARGET, dirs[i]) && !Under(FIXTURE_TARGET, dirs[i])
  {
    hide MissingDirs, WellFormed, OnTheWay, NewOutside, StageName, Installable;
    var m, n := MissingDirs(before, SCHEMA_DIR), MissingDirs(before, FIXTURE_DIR);
    MissingShapes(before);
    WayInOrder(m, n, a, b);
    TargetsAreNew(before, stage);
    var dirs := m[..a] + n[..b];
    forall i | 0 <= i < |dirs|
      ensures NewOutside(before, stage, dirs[i])
      ensures !Under(SCHEMA_TARGET, dirs[i]) && !Under(FIXTURE_TARGET, dirs[i])
    {
      assert dirs[i] in m || dirs[i] in n;
      OnTheWayIsNew(before, stage, dirs[i]);
    }
    forall i, j | 0 <= i < j < |dirs| ensures !Under(dirs[j], dirs[i]) {
    }
  }

  lemma MissingShapes(before: Tree)
    requires WellFormed(before) && Installable(before)
    ensures var m, n := MissingDirs(before, SCHEMA_DIR), MissingDirs(before, FIXTURE_DIR);
      && (m == [] || m == [SCHEMA_DIR]) && (n == [] || n == [FIXTURE_DIR] || n == [["tests"], FIXTURE_DIR])
      && (forall p :: p in m || p in n ==> p !in before)
  {
    MissingOnTheWay(before);
    assert Parent(FIXTURE_DIR) == ["tests"];
  }

  /** Every directory missing on the way to the two targets, in the order they are made. */
  function Way(before: Tree): seq<Path> {
    MissingDirs(before, SCHEMA_DIR) + MissingDirs(before, FIXTURE_DIR)
  }

  lemma WayIsNew(before: Tree, stage: string, k: nat)
    requires WellFormed(before) && Installable(before) && [stage] !in before && StageName(stage) && k <= |Way(before)|
    ensures var dirs := Way(before)[..k];
      && AllNew(before, stage, dirs, TARGETS) && AllNew(before, stage, dirs, [SCHEMA_TARGET])
      && AllNew(before, stage, dirs, [])
      && forall i :: 0 <= i < |dirs| ==>
           OnTheWay(dirs[i]) && !Under(SCHEMA_TARGET, dirs[i]) && !Under(FIXTURE_TARGET, dirs[i])
  {
    hide MissingDirs, WellFormed, Installable, StageName, AllNew, OnTheWay;
    var m, n := MissingDirs(before, SCHEMA_DIR), MissingDirs(before, FIXTURE_DIR);
    if k <= |m| {
      MissingAreNew(before, stage, k, 0);
      assert Way(before)[..k] == m[..k] + n[..0];
    } else {
      MissingAreNew(before, stage, |m|, k - |m|);
      assert Way(before)[..k] == m[..|m|] + n[..k - |m|];
    }
  }

  /** Staging changes nothing on the way to the targets. */
  lemma StagingKeepsTheWay(before: Tree, t: Tree, stage: string)
    requires WellFormed(before) && WellFormed(t) && SameOutside(before, t, [stage]) && StageName(stage)
    ensures MissingDirs(t, SCHEMA_DIR) == MissingDirs(before, SCHEMA_DIR)
    ensures SameAt(before, t, SCHEMA_DIR) && SameAt(before, t, ["tests"]) && SameAt(before, t, FIXTURE_DIR)
    ensures SameAt(before, t, SCHEMA_TARGET) && SameAt(before, t, FIXTURE_TARGET)
  {
    ElsewhereThanStage(stage, []);
    assert FIXTURE_TARGET + [] == FIXTURE_TARGET;
    assert OnTheWay(SCHEMA_DIR) && OnTheWay(["tests"]) && OnTheWay(FIXTURE_DIR);
    forall k | 0 < k <= |SCHEMA_DIR| ensures SCHEMA_DIR[..k] in t <==> SCHEMA_DIR[..k] in before {
      assert SCHEMA_DIR[..k] == SCHEMA_DIR;
    }
    MissingDirsSame(t, before, SCHEMA_DIR);
  }

  lemma FirstParentKeepsSecond(before: Tree, t: Tree, dirs: seq<Path>)
    requires dirs == [] || dirs == [SCHEMA_DIR]
    requires SameAt(before, t, ["tests"]) && SameAt(before, t, FIXTURE_DIR)
    ensures MissingDirs(AddDirs(t, dirs), FIXTURE_DIR) == MissingDirs(before, FIXTURE_DIR)
    ensures SameAt(before, AddDirs(t, dirs), ["tests"]) && SameAt(before, AddDirs(t, dirs), FIXTURE_DIR)
  {
    hide AddDirs, MissingDirs;
    NamesDiffer();
    var after := AddDirs(t, dirs);
    assert SCHEMA_DIR[0] != FIXTURE_DIR[0] && FIXTURE_DIR[..1] == ["tests"];
    AddDirsAt(t, dirs, ["tests"]);
    AddDirsAt(t, dirs, FIXTURE_DIR);
    forall k | 0 < k <= |FIXTURE_DIR| ensures FIXTURE_DIR[..k] in after <==> FIXTURE_DIR[..k] in before {
      assert FIXTURE_DIR[..k] == ["tests"] || FIXTURE_DIR[..k] == FIXTURE_DIR;
    }
    MissingDirsSame(after, before, FIXTURE_DIR);
  }

  lemma PrefixesAreDirs(t: Tree, p: Path)
    requires WellFormed(t) && (p == SCHEMA_DIR || p == FIXTURE_DIR)
    requires SCHEMA_DIR in t && p == SCHEMA_DIR ==> t[SCHEMA_DIR].Dir?
    requires p == FIXTURE_DIR && ["tests"] in t ==> t[["tests"]].Dir?
    requires p == FIXTURE_DIR && FIXTURE_DIR in t ==> t[FIXTURE_DIR].Dir?
    ensures forall k :: 0 <= k <= |p| && p[..k] in t ==> t[p[..k]].Dir?
  {
    forall k | 0 <= k <= |p| && p[..k] in t ensures t[p[..k]].Dir? {
      assert p[..k] == [] || p[..k] == p || p[..k] == ["tests"];
    }
  }

  /** The two calls of `_ensure_parent`. */
  method MakeParents(d: Disk, stage: string, assets: seq<Asset>, ghost before: Tree)
    returns (stop: Option<Stop>, created: seq<Path>)
    requires Ready(before, d.tree, stage, assets)
    modifies d`tree, d`clock
    ensures WellFormed(d.tree) && d.tree == AddDirs(old(d.tree), created)
    ensures |created| <= |Way(before)| && created == Way(before)[..|created|]
    ensures stop.None? ==> created == Way(before) && d.clock == old(d.clock) + |Way(before)|
    ensures stop.Some? ==> stop == Some(d.kind) && |created| < |Way(before)| && d.at == old(d.clock) + |created|
    ensures stop.None? <==> !(old(d.clock) <= d.at < old(d.clock) + |Way(before)|)
  {
    hide Staged, SameOutside, AddDirs, WellFormed, MissingDirs;
    StagingKeepsTheWay(before, d.tree, stage);
    MissingShapes(before);
    PrefixesAreDirs(d.tree, SCHEMA_DIR);
    ghost var m, n := MissingDirs(before, SCHEMA_DIR), MissingDirs(before, FIXTURE_DIR);
    stop, created := EnsureParent(d, SCHEMA_DIR);
    assert Way(before)[..|created|] == m[..|created|];
    if stop.Some? {
      return;
    }
    FirstParentKeepsSecond(before, old(d.tree), m);
    PrefixesAreDirs(d.tree, FIXTURE_DIR);
    var more;
    stop, more := EnsureParent(d, FIXTURE_DIR);
    AddDirsConcat(old(d.tree), m, more);
    assert Way(before)[..|m + more|] == m + n[..|more|];
    created := created + more;
  }

  /** With the parents made, the first rename can go ahead. */
  lemma ParentsThere(before: Tree, t: Tree, stage: string, assets: seq<Asset>)
    requires Ready(before, t, stage, assets)
    ensures var now := AddDirs(t, Way(before));
      && SchemaOf(stage) in now && FixtureOf(stage) in now
      && SCHEMA_TARGET !in now && FIXTURE_TARGET !in now
      && IsDir(now, SCHEMA_DIR) && IsDir(now, FIXTURE_DIR)
  {
    hide AddDirs, MissingDirs, WellFormed;
    var now := AddDirs(t, Way(before));
    StagingKeepsTheWay(before, t, stage);
    MissingShapes(before);
    MissingOnTheWay(before) by {
      RootThere(before);
    }
    StagedRoot(t, stage, assets);
    ElsewhereThanStage(stage, []);
    AddDirsAt(t, Way(before), SchemaOf(stage));
    AddDirsAt(t, Way(before), FixtureOf(stage));
    AddDirsAt(t, Way(before), SCHEMA_TARGET);
    AddDirsAt(t, Way(before), FIXTURE_TARGET);
    AddDirsAt(t, Way(before), SCHEMA_DIR);
    AddDirsAt(t, Way(before), FIXTURE_DIR);
    assert |SCHEMA_TARGET| == 2 && |FIXTURE_TARGET| == 3 && |SCHEMA_DIR| == 1 && |FIXTURE_DIR| == 2;
    assert SCHEMA_TARGET[0] == "schemas" && FIXTURE_DIR[0] == "tests";
    NamesDiffer();
  }

  lemma RootThere(t: Tree)
    requires WellFormed(t)
    ensures [] in t
  {
  }

  /** The first rename leaves everything in place for the second. */
  lemma SecondRenameReady(before: Tree, t: Tree, stage: string, assets: seq<Asset>)
    requires Ready(before, t, stage, assets)
    ensures var mid := Moved(AddDirs(t, Way(before)), SchemaOf(stage), SCHEMA_TARGET);
      && FixtureOf(stage) in mid && FIXTURE_TARGET !in mid && IsDir(mid, FIXTURE_DIR)
  {
    hide Moved, AddDirs, Staged, Way;
    var now := AddDirs(t, Way(before));
    ParentsThere(before, t, stage, assets);
    ElsewhereThanStage(stage, []);
    assert FixtureOf(stage) + [] == FixtureOf(stage) && FIXTURE_TARGET + [] == FIXTURE_TARGET;
    MovedAt(now, SchemaOf(stage), SCHEMA_TARGET, FixtureOf(stage));
    MovedAt(now, SchemaOf(stage), SCHEMA_TARGET, FIXTURE_TARGET);
    MovedAt(now, SchemaOf(stage), SCHEMA_TARGET, FIXTURE_DIR);
    assert !Under(SCHEMA_TARGET, FIXTURE_DIR) && !Under(SchemaOf(stage), FIXTURE_DIR) by {
      NamesDiffer();
      assert SCHEMA_TARGET[0] == "schemas" && FIXTURE_DIR[0] == "tests" && SchemaOf(stage)[0] == stage;
    }
    assert !Under(SchemaOf(stage), FIXTURE_TARGET) by {
      assert FIXTURE_TARGET[0] == "tests" && SchemaOf(stage)[0] == stage;
    }
  }

  /** The tree before the renames, between them and after them. */
  function Parented(before: Tree, t: Tree): Tree {
    AddDirs(t, Way(before))
  }

  function HalfInstalled(before: Tree, t: Tree, stage: string): Tree {
    Moved(Parented(before, t), SchemaOf(stage), SCHEMA_TARGET)
  }

  function FullyInstalled(before: Tree, t: Tree, stage: string): Tree {
    Moved(HalfInstalled(before, t, stage), FixtureOf(stage), FIXTURE_TARGET)
  }

  predicate AllIn(t: Tree, paths: seq<Path>) {
    forall i :: 0 <= i < |paths| ==> paths[i] in t
  }

  lemma FirstRename(before: Tree, t: Tree, stage: string, assets: seq<Asset>)
    requires Ready(before, t, stage, assets) && WellFormed(Parented(before, t))
    ensures SchemaOf(stage) in Parented(before, t) && !Under(SchemaOf(stage), SCHEMA_TARGET)
    ensures SCHEMA_TARGET !in Parented(before, t) && IsDir(Parented(before, t), Parent(SCHEMA_TARGET))
    ensures Laid(before, Parented(before, t), stage, Way(before), []) && AllIn(Parented(before, t), Way(before))
    ensures Laid(before, HalfInstalled(before, t, stage), stage, Way(before), [SCHEMA_TARGET])
    ensures AllIn(HalfInstalled(before, t, stage), Way(before)) && SCHEMA_TARGET in HalfInstalled(before, t, stage)
    ensures WellFormed(HalfInstalled(before, t, stage))
  {
    hide Staged, SameOutside, AddDirs, WellFormed, MissingDirs, Moved, Laid, Way, AllNew, Installable, StageName;
    var way := Way(before);
    assert way[..|way|] == way;
    WayIsNew(before, stage, |way|);
    WayOutside(before, stage, way);
    LaidWithDirs(before, t, stage, way);
    ParentsThere(before, t, stage, assets);
    StagesApart(stage);
    assert Parent(SCHEMA_TARGET) == SCHEMA_DIR && [] + [SCHEMA_TARGET] == [SCHEMA_TARGET];
    assert Under([stage], SchemaOf(stage));
    MovedIsWellFormed(Parented(before, t), SchemaOf(stage), SCHEMA_TARGET);
    LaidAfterMove(before, Parented(before, t), stage, way, [], SchemaOf(stage), SCHEMA_TARGET);
  }

  lemma SecondRename(before: Tree, t: Tree, stage: string, assets: seq<Asset>)
    requires Ready(before, t, stage, assets) && WellFormed(Parented(before, t))
    ensures var mid := HalfInstalled(before, t, stage);
      && FixtureOf(stage) in mid && !Under(FixtureOf(stage), FIXTURE_TARGET)
      && FIXTURE_TARGET !in mid && IsDir(mid, Parent(FIXTURE_TARGET))
    ensures var done := FullyInstalled(before, t, stage);
      && Laid(before, done, stage, Way(before), TARGETS) && AllIn(done, Way(before)) && AllIn(done, TARGETS)
      && Exact(Without(done, [stage]), assets)
  {
    hide Staged, SameOutside, AddDirs, WellFormed, MissingDirs, Moved, Laid, Way, AllNew, Exact, Installable, StageName;
    var way := Way(before);
    assert way[..|way|] == way;
    WayIsNew(before, stage, |way|);
    WayOutside(before, stage, way);
    FirstRename(before, t, stage, assets);
    SecondRenameReady(before, t, stage, assets);
    StagesApart(stage);
    StageIsNotSchema(stage);
    assert Parent(FIXTURE_TARGET) == FIXTURE_DIR && [SCHEMA_TARGET] + [FIXTURE_TARGET] == TARGETS;
    assert Under([stage], FixtureOf(stage));
    LaidAfterMove(before, HalfInstalled(before, t, stage), stage, way, [SCHEMA_TARGET], FixtureOf(stage),
                  FIXTURE_TARGET);
    FinishedIsExact(t, way, HalfInstalled(before, t, stage), stage, assets);
  }

  lemma StageIsNotSchema(stage: string)
    requires StageName(stage)
    ensures !Under([stage], SCHEMA_TARGET)
  {
    ElsewhereThanStage(stage, []);
  }

  /** The two renames, and what each leaves. `t` is the tree as staging left it. */
  method RenameStaged(d: Disk, stage: string, assets: seq<Asset>, ghost before: Tree, ghost t: Tree)
    returns (stop: Option<Stop>, installed: seq<Path>)
    requires Ready(before, t, stage, assets) && d.tree == Parented(before, t) && WellFormed(d.tree)
    modifies d`tree, d`clock
    ensures WellFormed(d.tree) && Laid(before, d.tree, stage, Way(before), installed)
    ensures AllIn(d.tree, Way(before)) && AllIn(d.tree, installed)
    ensures |installed| <= |TARGETS| && installed == TARGETS[..|installed|]
    ensures stop.None? ==> installed == TARGETS && Exact(Without(d.tree, [stage]), assets)
    ensures stop.Some? ==> stop == Some(d.kind) && |installed| < 2 && d.at == old(d.clock) + |installed|
    ensures stop.None? <==> !(old(d.clock) <= d.at < old(d.clock) + 2)
  {
    hide Ready, WellFormed, Moved, Laid, Way, Exact, Parented;
    FirstRename(before, t, stage, assets);
    SecondRename(before, t, stage, assets);
    installed := [];
    assert TARGETS[..0] == [] && TARGETS[..1] == [SCHEMA_TARGET] && TARGETS[..2] == TARGETS;
    stop := d.Rename(SchemaOf(stage), SCHEMA_TARGET);
    if stop.Some? {
      return;
    }
    installed := [SCHEMA_TARGET];
    stop := d.Rename(FixtureOf(stage), FIXTURE_TARGET);
    if stop.Some? {
      return;
    }
    installed := TARGETS;
  }

  lemma StagesApart(stage: string)
    requires StageName(stage)
    ensures !Under(SchemaOf(stage), SCHEMA_TARGET) && !Under(FixtureOf(stage), FIXTURE_TARGET)
  {
    assert SCHEMA_TARGET[0] == "schemas" && FIXTURE_TARGET[0] == "tests";
    assert SchemaOf(stage)[0] == stage && FixtureOf(stage)[0] == stage;
  }

  lemma WayOutside(before: Tree, stage: string, way: seq<Path>)
    requires AllNew(before, stage, way, [])
    ensures forall i :: 0 <= i < |way| ==> !Under([stage], way[i])
  {
    forall i | 0 <= i < |way| ensures !Under([stage], way[i]) {
      assert NewOutside(before, stage, way[i]);
    }
  }

  // Preflight

  method CasefoldCollision(t: Tree, parent: Path, name: string, fold: string -> string) returns (clear: bool)
    ensures clear <==> NoAlias(t, parent, name, fold)
  {
    var children := Children(t, parent);
    while children != {}
      invariant children <= Children(t, parent)
      invariant forall q :: q in Children(t, parent) && q !in children ==>
                  fold(q[|parent|]) == fold(name) ==> q[|parent|] == name
    {
      var child :| child in children;
      if fold(child[|parent|]) == fold(name) && child[|parent|] != name {
        return false;
      }
      children := children - {child};
    }
    return true;
  }

  method CheckTarget(t: Tree, target: Path, fold: string -> string) returns (clear: bool)
    requires target != []
    ensures clear <==> TargetClear(t, target, fold)
  {
    var k := 0;
    while k < |target|
      invariant 0 <= k <= |target| && forall j :: 0 <= j < k ==> StepClear(t, target, j, fold)
    {
      var fits := CasefoldCollision(t, target[..k], target[k], fold);
      if !fits || (k + 1 < |target| && target[..k + 1] in t && !t[target[..k + 1]].Dir?) {
        assert !StepClear(t, target, k, fold);
        return false;
      }
      k := k + 1;
    }
    return target !in t;
  }

  /** `_preflight`, of a root that is a directory. */
  method Preflight(t: Tree, fold: string -> string) returns (clear: bool)
    ensures clear <==> Clear(t, fold)
  {
    var schemas := CheckTarget(t, SCHEMA_TARGET, fold);
    if !schemas {
      return false;
    }
    clear := CheckTarget(t, FIXTURE_TARGET, fold);
  }

  // The whole

  lemma OperationsAdd(before: Tree, assets: seq<Asset>)
    requires WellFormed(before)
    ensures TotalOps(before, assets) == StagingOps(assets) + |Way(before)| + 2
  {
    RootThere(before);
    MissingOnTheWay(before);
  }

  /** The handler of `except Exception`, then the `finally` block. */
  method CleanUp(d: Disk, stage: string, created: seq<Path>, installed: seq<Path>, ghost before: Tree)
    requires WellFormed(before) && WellFormed(d.tree) && AllNew(before, stage, created, installed)
    requires Laid(before, d.tree, stage, created, installed)
    modifies d`tree
    ensures d.tree == before
  {
    RemoveInstalled(d, before, stage, created, installed);
    RemoveCreated(d, before, stage, created);
    CleanIsBefore(before, d.tree, stage);
    d.RemoveOwned([stage]);
  }

  lemma StagedOnlyIsLaid(before: Tree, t: Tree, stage: string)
    requires WellFormed(before) && [stage] !in before && SameOutside(before, t, [stage])
    ensures Laid(before, t, stage, [], []) && AllNew(before, stage, [], [])
  {
    LaidWithDirs(before, t, stage, []);
  }

  /** The body of the `try` block: how far it came, and why it stopped. */
  method Attempt(d: Disk, stage: string, assets: seq<Asset>)
    returns (stop: Option<Stop>, created: seq<Path>, installed: seq<Path>)
    requires WellFormed(d.tree) && Installable(d.tree) && [stage] !in d.tree && StageName(stage) && d.clock == 0
    requires AssetsOk(assets)
    modifies d`tree, d`clock
    ensures WellFormed(d.tree) && AllNew(old(d.tree), stage, created, installed)
    ensures Laid(old(d.tree), d.tree, stage, created, installed) && AllIn(d.tree, created) && AllIn(d.tree, installed)
    ensures stop == if d.at < TotalOps(old(d.tree), assets) then Some(d.kind) else None
    ensures stop.Some? ==> (created == [] && installed == [] <==> d.at <= StagingOps(assets))
    ensures stop.None? ==>
              && installed == TARGETS && (forall i :: 0 <= i < |created| ==> OnTheWay(created[i]))
              && Exact(Without(d.tree, [stage]), assets)
  {
    hide WellFormed, Installable, StageName, AllNew, Laid, Exact, TotalOps, StagingOps, Staged, SameOutside, Way,
      OnTheWay,
      AddDirs;
    ghost var before := d.tree;
    OperationsAdd(before, assets);
    created, installed := [], [];
    stop := StageAssets(d, stage, assets);
    StagedOnlyIsLaid(before, d.tree, stage);
    if stop.Some? {
      return;
    }
    ghost var t := d.tree;
    stop, created := MakeParents(d, stage, assets, before);
    WayIsNew(before, stage, |created|);
    LaidWithDirs(before, t, stage, created);
    if stop.Some? {
      return;
    }
    assert Way(before)[..|Way(before)|] == Way(before);
    stop, installed := RenameStaged(d, stage, assets, before, t);
    TargetsAllNew(before, stage, created, |installed|);
  }

  lemma TargetsAllNew(before: Tree, stage: string, created: seq<Path>, k: nat)
    requires AllNew(before, stage, created, TARGETS) && k <= |TARGETS|
    ensures AllNew(before, stage, created, TARGETS[..k])
  {
    forall i | 0 <= i < k ensures NewOutside(before, stage, TARGETS[..k][i]) {
      assert NewOutside(before, stage, TARGETS[i]);
    }
  }

  /** `generate_provider_ready_contract`. Whatever operation fails with an ordinary exception, the
      tree under the root is the one it started from; undisturbed, the targets hold exactly the
      assets and only they and their missing parents are new. An interrupt is not handled: it leaves
      the tree as it was exactly when it comes before the first parent is made or target renamed. */
  method Generate(d: Disk, stage: string, assets: seq<Asset>) returns (r: Report)
    requires WellFormed(d.tree) && [stage] !in d.tree && StageName(stage) && d.clock == 0 && AssetsOk(assets)
    modifies d`tree, d`clock
    ensures r.Refused? <==> !Clear(old(d.tree), d.fold)
    ensures r.Refused? || r.Raised? ==> d.tree == old(d.tree)
    ensures r.Installed? <==> Clear(old(d.tree), d.fold) && d.at >= TotalOps(old(d.tree), assets)
    ensures r.Installed? ==> Exact(d.tree, assets) && OnlyAdds(old(d.tree), d.tree)
    ensures r.Raised? ==> d.kind.Error?
    ensures r.Interrupted? ==> d.kind.Interrupt? && (d.tree == old(d.tree) <==> d.at <= StagingOps(assets))
  {
    hide WellFormed, Installable, StageName, AllNew, Laid, Exact, TotalOps, StagingOps, Clear, OnlyAdds, Without,
      OnTheWay,
      AssetsOk;
    ghost var before := d.tree;
    var clear := Preflight(d.tree, d.fold);
    if !clear {
      return Refused;
    }
    ClearIsInstallable(d.tree, d.fold);
    var stop, created, installed := Attempt(d, stage, assets);
    if stop.None? {
      WithoutIsWellFormed(d.tree, [stage]);
      FinishedOnlyAdds(before, d.tree, stage, created, assets);
      d.RemoveOwned([stage]);
      return Installed;
    }
    if stop.value.Error? {
      CleanUp(d, stage, created, installed, before);
      return Raised;
    }
    StageRemovedOnly(before, d.tree, stage, created, installed);
    d.RemoveOwned([stage]);
    return Interrupted;
  }

  // Verification

  /** The files the assets put below the fixture directory. */
  function FilesOf(assets: seq<Asset>): map<Path, Bytes> {
    if assets == [] then map[]
    else
      var last := assets[|assets| - 1];
      var earlier := FilesOf(assets[..|assets| - 1]);
      if last.Fixture? then earlier[last.path := last.raw] else earlier
  }

  lemma {:induction false} FilesAreNodes(assets: seq<Asset>, rel: Path)
    requires forall i :: 0 <= i < |assets| ==> AssetPlaced(assets[i])
    ensures rel in FilesOf(assets) <==> NodeIn(assets, rel).Some? && NodeIn(assets, rel).value.File?
    ensures rel in FilesOf(assets) ==> NodeIn(assets, rel) == Some(File(FilesOf(assets)[rel]))
    decreases |assets|
  {
    if assets != [] {
      var last := assets[|assets| - 1];
      assert AssetPlaced(last);
      NodeKinds(assets, rel);
      FilesAreNodes(assets[..|assets| - 1], rel);
      if last.Fixture? && Parent(last.path) == rel && rel in FilesOf(assets[..|assets| - 1]) {
        NodeKinds(assets[..|assets| - 1], rel);
      }
    }
  }

  lemma DirectoriesAreCases(assets: seq<Asset>, rel: Path)
    requires AssetsOk(assets) && rel != []
    ensures NodeIn(assets, rel) == Some(Dir) <==> rel == [VALID] || rel == [INVALID]
  {
    NodeKinds(assets, rel);
    NodeKinds(assets, [VALID]);
    NodeKinds(assets, [INVALID]);
    assert |rel| == 1 ==> rel == [rel[0]];
  }

  /** The entries strictly below the fixture directory, by their relative paths. */
  function Relatives(t: Tree): set<Path> {
    set q | q in t && Under(FIXTURE_TARGET, q) && q != FIXTURE_TARGET :: q[|FIXTURE_TARGET|..]
  }

  lemma RelativesAre(t: Tree, rel: Path)
    ensures rel in Relatives(t) <==> rel != [] && FIXTURE_TARGET + rel in t
  {
    var q := FIXTURE_TARGET + rel;
    assert Under(FIXTURE_TARGET, q) && q[|FIXTURE_TARGET|..] == rel;
    forall p | p in t && Under(FIXTURE_TARGET, p) && p[|FIXTURE_TARGET|..] == rel ensures p == q {
      assert p == p[..|FIXTURE_TARGET|] + p[|FIXTURE_TARGET|..];
    }
  }

  function NodeAt(t: Tree, rel: Path): Node
    requires FIXTURE_TARGET + rel in t
  {
    t[FIXTURE_TARGET + rel]
  }

  /** The walk read exactly these directories and files, and met no link. */
  predicate WalkRead(t: Tree, seen: set<Path>, directories: set<Path>, files: map<Path, Bytes>) {
    && directories + files.Keys == seen
    && (forall rel :: rel in seen ==> FIXTURE_TARGET + rel in t)
    && (forall rel :: rel in directories ==> FIXTURE_TARGET + rel in t && NodeAt(t, rel).Dir?)
    && (forall rel :: rel in files ==> FIXTURE_TARGET + rel in t && NodeAt(t, rel) == File(files[rel]))
  }

  /** `_actual_asset_bytes` below the fixture directory; `None` is a link among the entries. */
  method Walk(t: Tree) returns (r: Option<(set<Path>, map<Path, Bytes>)>)
    ensures r.Some? ==> WalkRead(t, Relatives(t), r.value.0, r.value.1)
    ensures r.None? <==> exists rel :: rel in Relatives(t) && FIXTURE_TARGET + rel in t && NodeAt(t, rel).Link?
  {
    var todo := Relatives(t);
    var directories: set<Path> := {};
    var files: map<Path, Bytes> := map[];
    while todo != {}
      invariant todo <= Relatives(t)
      invariant WalkRead(t, Relatives(t) - todo, directories, files)
      invariant forall rel :: rel in Relatives(t) && rel !in todo ==> FIXTURE_TARGET + rel in t && !NodeAt(t, rel).Link?
    {
      var rel :| rel in todo;
      RelativesAre(t, rel);
      match NodeAt(t, rel) {
        case Link =>
          return None;
        case Dir =>
          directories := directories + {rel};
        case File(raw) =>
          files := files[rel := raw];
      }
      todo := todo - {rel};
    }
    return Some((directories, files));
  }

  lemma ExactIsWalked(t: Tree, assets: seq<Asset>, directories: set<Path>, files: map<Path, Bytes>)
    requires AssetsOk(assets) && IsDir(t, FIXTURE_TARGET) && WalkRead(t, Relatives(t), directories, files)
    ensures (forall rel: Path :: ExactAt(t, assets, rel)) <==>
            directories == {[VALID], [INVALID]} && files == FilesOf(assets)
  {
    hide NodeIn, FilesOf, Relatives;
    if forall rel: Path :: ExactAt(t, assets, rel) {
      forall rel ensures rel in directories <==> rel == [VALID] || rel == [INVALID] {
        WalkedAt(t, assets, directories, files, rel);
      }
      forall rel ensures rel in files <==> rel in FilesOf(assets) {
        WalkedAt(t, assets, directories, files, rel);
      }
      forall rel | rel in files ensures files[rel] == FilesOf(assets)[rel] {
        WalkedAt(t, assets, directories, files, rel);
      }
    }
    if directories == {[VALID], [INVALID]} && files == FilesOf(assets) {
      forall rel: Path ensures ExactAt(t, assets, rel) {
        WalkedBack(t, assets, directories, files, rel);
      }
    }
  }

  lemma WalkedAt(t: Tree, assets: seq<Asset>, directories: set<Path>, files: map<Path, Bytes>, rel: Path)
    requires AssetsOk(assets) && WalkRead(t, Relatives(t), directories, files) && ExactAt(t, assets, rel)
    ensures rel in directories <==> rel == [VALID] || rel == [INVALID]
    ensures rel in files <==> rel in FilesOf(assets)
    ensures rel in files ==> files[rel] == FilesOf(assets)[rel]
  {
    hide NodeIn, FilesOf, Relatives;
    RelativesAre(t, rel);
    NodeAtTop(assets);
    FilesAreNodes(assets, rel);
    NodeKinds(assets, rel);
    if rel != [] {
      DirectoriesAreCases(assets, rel);
    }
  }

  lemma WalkedBack(t: Tree, assets: seq<Asset>, directories: set<Path>, files: map<Path, Bytes>, rel: Path)
    requires AssetsOk(assets) && IsDir(t, FIXTURE_TARGET) && WalkRead(t, Relatives(t), directories, files)
    requires directories == {[VALID], [INVALID]} && files == FilesOf(assets)
    ensures ExactAt(t, assets, rel)
  {
    hide NodeIn, FilesOf, Relatives;
    RelativesAre(t, rel);
    NodeAtTop(assets);
    FilesAreNodes(assets, rel);
    NodeKinds(assets, rel);
    if rel == [] {
      assert FIXTURE_TARGET + rel == FIXTURE_TARGET;
    } else {
      DirectoriesAreCases(assets, rel);
    }
  }

  lemma ExactHasShape(t: Tree, assets: seq<Asset>)
    requires Exact(t, assets)
    ensures SCHEMA_TARGET in t && t[SCHEMA_TARGET].File? && IsDir(t, FIXTURE_TARGET)
  {
    assert ExactAt(t, assets, []) && FIXTURE_TARGET + [] == FIXTURE_TARGET;
    NodeAtTop(assets);
  }

  lemma NoLinkWhenExact(t: Tree, assets: seq<Asset>, rel: Path)
    requires AssetsOk(assets) && ExactAt(t, assets, rel) && FIXTURE_TARGET + rel in t
    ensures !NodeAt(t, rel).Link?
  {
    NodeKinds(assets, rel);
  }

  /** `verify_provider_ready_assets`: it accepts a tree exactly when the two targets hold the assets
      and nothing else, so in particular every tree that an installation completed. */
  method Verify(t: Tree, assets: seq<Asset>) returns (ok: bool)
    requires AssetsOk(assets)
    ensures ok <==> Exact(t, assets)
  {
    hide AssetsOk, WalkRead, Relatives, ExactAt;
    if SCHEMA_TARGET !in t || !t[SCHEMA_TARGET].File? || !IsDir(t, FIXTURE_TARGET) {
      if Exact(t, assets) {
        ExactHasShape(t, assets);
      }
      return false;
    }
    var walked := Walk(t);
    if walked.None? {
      ghost var rel :| rel in Relatives(t) && FIXTURE_TARGET + rel in t && NodeAt(t, rel).Link?;
      if ExactAt(t, assets, rel) {
        NoLinkWhenExact(t, assets, rel);
      }
      return false;
    }
    var (directories, files) := walked.value;
    ExactIsWalked(t, assets, directories, files);
    return directories == {[VALID], [INVALID]} && files == FilesOf(assets)
           && SchemaIn(assets) == Some(t[SCHEMA_TARGET].raw);
  }
}

/** Which files an installed contract is made of. */
module ContractFiles {
  import opened JsonValues
  import opened FileTree
  import opened StagedInstall

  /** One schema bundle at most, and no two fixtures at one path. */
  predicate Apart(assets: seq<Asset>) {
    forall i, j :: 0 <= i < j < |assets| ==>
                     && !(assets[i].Schema? && assets[j].Schema?)
                     && (assets[i].Fixture? && assets[j].Fixture? ==> assets[i].path != assets[j].path)
  }

  predicate IsFixture(assets: seq<Asset>, i: nat, rel: Path) {
    i < |assets| && assets[i].Fixture? && assets[i].path == rel
  }

  predicate IsAbove(assets: seq<Asset>, i: nat, rel: Path) {
    i < |assets| && assets[i].Fixture? && |assets[i].path| == |rel| + 1 && assets[i].path[..|rel|] == rel
  }

  lemma {:induction false} FixtureIsThere(assets: seq<Asset>, i: nat)
    requires Apart(assets) && i < |assets| && assets[i].Fixture?
    requires forall k :: 0 <= k < |assets| ==> AssetPlaced(assets[k])
    ensures NodeIn(assets, assets[i].path) == Some(File(assets[i].raw))
    decreases |assets|
  {
    var last := |assets| - 1;
    assert AssetPlaced(assets[i]) && AssetPlaced(assets[last]);
    if i < last {
      FixtureIsThere(assets[..last], i);
      assert assets[..last][i] == assets[i];
    }
  }

  lemma {:induction false} SchemaIsThere(assets: seq<Asset>, i: nat)
    requires Apart(assets) && i < |assets| && assets[i].Schema?
    ensures SchemaIn(assets) == Some(assets[i].raw)
    decreases |assets|
  {
    var last := |assets| - 1;
    if i < last {
      assert !assets[last].Schema?;
      SchemaIsThere(assets[..last], i);
    }
  }

  lemma {:induction false} SchemaIsFound(assets: seq<Asset>) returns (i: nat)
    requires SchemaIn(assets).Some?
    ensures i < |assets| && assets[i] == Schema(SchemaIn(assets).value)
    decreases |assets|
  {
    i := |assets| - 1;
    if !assets[i].Schema? {
      i := SchemaIsFound(assets[..i]);
    }
  }

  /** What is there below the fixture directory is a fixture, or a directory a fixture is in. */
  lemma {:induction false} NodeIsFound(assets: seq<Asset>, rel: Path)
    requires NodeIn(assets, rel).Some? && rel != []
    requires forall k :: 0 <= k < |assets| ==> AssetPlaced(assets[k])
    ensures NodeIn(assets, rel) == Some(Dir) || NodeIn(assets, rel).value.File?
    ensures NodeIn(assets, rel).value.File? ==> exists i :: IsFixture(assets, i, rel)
    ensures NodeIn(assets, rel) == Some(Dir) ==> exists i :: IsAbove(assets, i, rel)
    decreases |assets|
  {
    var last := |assets| - 1;
    if IsFixture(assets, last, rel) {
    } else if assets[last].Fixture? && assets[last].path != [] && Parent(assets[last].path) == rel {
      assert IsAbove(assets, last, rel);
    } else {
      NodeIsFound(assets[..last], rel);
      if NodeIn(assets, rel).value.File? {
        var i :| IsFixture(assets[..last], i, rel);
        assert IsFixture(assets, i, rel);
      } else {
        var i :| IsAbove(assets[..last], i, rel);
        assert IsAbove(assets, i, rel);
      }
    }
  }

  const BUNDLE_PLACE: Path := ["schemas", "aar-provider-ready-schemas-v1.json"]
  const FIXTURE_PLACE: Path := ["tests", "fixtures", "provider-ready"]

  /** The schema bundle and every fixture are at their places, byte for byte, the two case directories are there, and
      below the fixture directory there is nothing else. */
  ghost predicate HoldsTheAssets(t: Tree, assets: seq<Asset>) {
    && (forall i :: 0 <= i < |assets| && assets[i].Schema? ==>
          BUNDLE_PLACE in t && t[BUNDLE_PLACE] == File(assets[i].raw))
    && (forall i :: 0 <= i < |assets| && assets[i].Fixture? ==>
          FIXTURE_PLACE + assets[i].path in t && t[FIXTURE_PLACE + assets[i].path] == File(assets[i].raw))
    && (forall rel: Path :: rel in {[], ["valid"], ["invalid"]} ==>
          FIXTURE_PLACE + rel in t && t[FIXTURE_PLACE + rel] == Dir)
    && (forall rel: Path :: FIXTURE_PLACE + rel in t ==>
          rel in {[], ["valid"], ["invalid"]} || exists i :: IsFixture(assets, i, rel))
  }

  lemma CaseDirectories(assets: seq<Asset>, rel: Path)
    requires AssetsOk(assets) && NodeIn(assets, rel) == Some(Dir)
    ensures rel in {[], ["valid"], ["invalid"]}
  {
    NodeKinds(assets, rel);
    if rel != [] {
      assert rel == [rel[0]];
    }
  }

  lemma CasesAreDirectories(assets: seq<Asset>, rel: Path)
    requires AssetsOk(assets) && rel in {[], ["valid"], ["invalid"]}
    ensures NodeIn(assets, rel) == Some(Dir)
  {
    NodeKinds(assets, rel);
  }

  /** A tree is exact for a set of assets exactly when it holds them and nothing more at the two places. */
  lemma ExactlyTheAssets(t: Tree, assets: seq<Asset>)
    requires AssetsOk(assets) && Apart(assets)
    ensures Exact(t, assets) <==> HoldsTheAssets(t, assets)
  {
    hide AssetsOk, Apart, NodeIn, SchemaIn;
    if Exact(t, assets) {
      ExactHolds(t, assets);
    }
    if HoldsTheAssets(t, assets) {
      HoldingIsExact(t, assets);
    }
  }

  lemma ExactHolds(t: Tree, assets: seq<Asset>)
    requires AssetsOk(assets) && Apart(assets) && Exact(t, assets)
    ensures HoldsTheAssets(t, assets)
  {
    hide NodeIn, SchemaIn, Apart;
    forall i | 0 <= i < |assets| && assets[i].Schema? ensures t[BUNDLE_PLACE] == File(assets[i].raw) {
      SchemaIsThere(assets, i);
    }
    forall i | 0 <= i < |assets| && assets[i].Fixture?
      ensures FIXTURE_PLACE + assets[i].path in t && t[FIXTURE_PLACE + assets[i].path] == File(assets[i].raw)
    {
      FixtureIsThere(assets, i);
      assert ExactAt(t, assets, assets[i].path);
    }
    forall rel: Path | rel in {[], ["valid"], ["invalid"]}
      ensures FIXTURE_PLACE + rel in t && t[FIXTURE_PLACE + rel] == Dir
    {
      CasesAreDirectories(assets, rel);
      assert ExactAt(t, assets, rel);
    }
    forall rel: Path | FIXTURE_PLACE + rel in t && rel !in {[], ["valid"], ["invalid"]}
      ensures exists i :: IsFixture(assets, i, rel)
    {
      assert ExactAt(t, assets, rel);
      NodeIsFound(assets, rel);
      if NodeIn(assets, rel) == Some(Dir) {
        CaseDirectories(assets, rel);
      }
    }
  }

  lemma HoldingIsExact(t: Tree, assets: seq<Asset>)
    requires AssetsOk(assets) && Apart(assets) && HoldsTheAssets(t, assets)
    ensures Exact(t, assets)
  {
    hide NodeIn, SchemaIn, Apart;
    var s := SchemaIsFound(assets);
    forall rel: Path ensures ExactAt(t, assets, rel) {
      if rel in {[], ["valid"], ["invalid"]} {
        CasesAreDirectories(assets, rel);
      } else if FIXTURE_PLACE + rel in t {
        var i :| IsFixture(assets, i, rel);
        FixtureIsThere(assets, i);
      } else if NodeIn(assets, rel).Some? {
        NodeIsFound(assets, rel);
        HeldFixture(t, assets, rel);
        if NodeIn(assets, rel) == Some(Dir) {
          CaseDirectories(assets, rel);
        }
      }
    }
  }

  lemma HeldFixture(t: Tree, assets: seq<Asset>, rel: Path)
    requires HoldsTheAssets(t, assets)
    ensures (exists i :: IsFixture(assets, i, rel)) ==> FIXTURE_PLACE + rel in t
  {
  }
}

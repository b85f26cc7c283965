/** What the pass writes, by name and value. */
module ConstraintEdits {
  import opened JsonValues
  import opened ConstraintCompiler

  predicate TimeAllowance(name: string) {
    name in {"budget_wall_time_ms", "total_wall_time_ms", "cell_wall_time_ms", "remaining_wall_time_ms"}
  }

  /** The three hops lead to the bound of a time allowance, or to what a surface version may be, under `properties`. */
  predicate Frozen(a: Hop, b: Hop, c: Hop) {
    && a == At("properties")
    && ((b.At? && TimeAllowance(b.key) && c == At("maximum"))
        || (b == At("surface_version") && c in {At("const"), At("enum")}))
  }

  /** The path goes through such hops. */
  predicate GoesThroughFrozen(path: seq<Hop>) {
    exists i :: 0 <= i < |path| - 2 && Frozen(path[i], path[i + 1], path[i + 2])
  }

  lemma FrozenIsNamed(path: seq<Hop>)
    ensures GoesThroughFrozen(path) <==> PassesNamed(path)
  {
    forall i | 0 <= i < |path| - 2 ensures Frozen(path[i], path[i + 1], path[i + 2]) <==> NamedPlace(path, i) {
    }
  }

  /** Off those places every value is what it was, up to what the pass writes further down: no place appears or
      disappears, and every number, text and word stays. */
  lemma NothingElseChanges(document: Json, path: seq<Hop>)
    requires !GoesThroughFrozen(path)
    ensures Look(document, path).None? <==> Look(Compiled(document, Plain), path).None?
    ensures Look(document, path).Some? && !Look(document, path).value.Arr? && !Look(document, path).value.Obj? ==>
              Look(Compiled(document, Plain), path) == Look(document, path)
  {
    hide Look, Compiled;
    FrozenIsNamed(path);
    OnlyNamedPlacesChange(document, path);
  }

  /** The bound of a time allowance is lifted from one minute or a quarter of an hour to the largest 64-bit integer, and
      any other number stays. */
  lemma AllowancesAreLifted(document: Json, path: seq<Hop>, name: string, n: int)
    requires TimeAllowance(name) && !GoesThroughFrozen(path)
    requires Look(document, path + [At("properties"), At(name), At("maximum")]) == Some(Num(n))
    ensures Look(Compiled(document, Plain), path + [At("properties"), At(name), At("maximum")]) ==
            Some(Num(if n == 60_000 || n == 900_000 then 9_223_372_036_854_775_807 else n))
  {
    hide Look, Compiled;
    FrozenIsNamed(path);
    BoundsExactly(document, path, name, Num(n));
  }

  /** A surface version that had to be the eighth may be the eighth or the ninth; any other scalar stays. */
  lemma SurfaceIsWidened(document: Json, path: seq<Hop>, value: Option<Json>)
    requires !GoesThroughFrozen(path) && (value.Some? ==> IsScalar(value.value))
    requires Look(document, path + [At("properties"), At("surface_version")]).Some?
    requires Look(document, path + [At("properties"), At("surface_version")]).value.Obj?
    requires Look(document, path + [At("properties"), At("surface_version"), At("const")]) == value
    ensures var after := Compiled(document, Plain); var place := path + [At("properties"), At("surface_version")];
      && Look(after, place + [At("const")]) == (if value == Some(Str("aar.mcp-tools.v8")) then None else value)
      && (value == Some(Str("aar.mcp-tools.v8")) ==>
            Look(after, place + [At("enum")]) == Some(Arr([Str("aar.mcp-tools.v8"), Str("aar.mcp-tools.v9")])))
  {
    hide Compiled;
    FrozenIsNamed(path);
    var place := path + [At("properties"), At("surface_version")];
    assert path + [At("properties"), At("surface_version"), At("const")] == place + [At("const")];
    SurfaceIsUnedited(path);
    EditsAreNamed(place);
    LookCompiled(document, Plain, place);
    RoleOfSurface(Plain, path);
    LookSplits(document, place, At("const"));
    LookSplits(Compiled(document, Plain), place, At("const"));
    LookSplits(Compiled(document, Plain), place, At("enum"));
    SurfaceEdited(Look(document, place).value.fields, value);
  }

  lemma LookOne(value: Json, key: string)
    requires value.Obj?
    ensures Look(value, [At(key)]) == Get(value.fields, key)
  {
    assert [At(key)][1..] == [];
    assert forall v :: Look(v, []) == Some(v);
  }

  lemma SurfaceEdited(fields: seq<Field>, value: Option<Json>)
    requires Look(Obj(fields), [At("const")]) == value && (value.Some? ==> IsScalar(value.value))
    ensures var after := Compiled(Obj(fields), Surface);
      && Look(after, [At("const")]) == (if value == Some(Str("aar.mcp-tools.v8")) then None else value)
      && (value == Some(Str("aar.mcp-tools.v8")) ==>
            Look(after, [At("enum")]) == Some(Arr([Str("aar.mcp-tools.v8"), Str("aar.mcp-tools.v9")])))
  {
    hide CompiledFields, Look;
    NamesApart();
    var done := CompiledFields(fields, Surface);
    LookOne(Obj(fields), "const");
    GetCompiled(fields, Surface, "const");
    LookOne(Compiled(Obj(fields), Surface), "const");
    LookOne(Compiled(Obj(fields), Surface), "enum");
    WithoutIsGone(done, "const");
    GetPut(Without(done, "const"), "enum", BOTH, "const");
  }

  lemma {:induction false} WithoutIsGone(fields: seq<Field>, key: string)
    ensures Get(Without(fields, key), key).None?
    decreases |fields|
  {
    if fields != [] {
      WithoutIsGone(fields[1..], key);
    }
  }

  lemma {:induction false} RoleOfSurface(role: Role, path: seq<Hop>)
    ensures RoleAt(role, path + [At("properties"), At("surface_version")]) == Surface
    decreases |path|
  {
    NamesApart();
    if path == [] {
      var upper := [At("properties"), At("surface_version")];
      assert path + upper == upper && upper[1..] == [At("surface_version")] && upper[1..][1..] == [];
      assert !IsTimeField("surface_version") by { assert |"surface_version"| == 15; }
      assert HopRole(role, At("properties")) == Properties;
      assert RoleAt(Properties, [At("surface_version")]) == RoleAt(HopRole(Properties, At("surface_version")), []);
    } else {
      assert (path + [At("properties"), At("surface_version")])[1..] ==
             path[1..] + [At("properties"), At("surface_version")];
      RoleOfSurface(HopRole(role, path[0]), path[1..]);
    }
  }

  lemma SurfaceIsUnedited(path: seq<Hop>)
    requires !PassesNamed(path)
    ensures !PassesNamed(path + [At("properties"), At("surface_version")])
  {
    NamesApart();
    assert |"surface_version"| == 15 && |MAXIMUM| == 7 && |CONST| == 5 && |ENUM| == 4;
    var upper := path + [At("properties"), At("surface_version")];
    forall i | 0 <= i < |upper| - 2 ensures !NamedPlace(upper, i) {
      if i < |path| - 2 {
        assert !NamedPlace(path, i);
        assert upper[i] == path[i] && upper[i + 1] == path[i + 1] && upper[i + 2] == path[i + 2];
      }
    }
  }

  /** What the pass can work through: `properties` must be an object wherever it stands, and under it the bound of a
      time allowance no list and no object. */
  lemma WorksThroughExactly(f: Field, role: Role)
    ensures CompilableField(f, role, false) <==>
            && (f.key == "properties" ==> f.value.Obj?)
            && (role == Properties && TimeAllowance(f.key) && f.value.Obj? ==>
                  forall bound :: Get(f.value.fields, "maximum") == Some(bound) ==> !bound.Arr? && !bound.Obj?)
            && Compilable(f.value, ChildRole(role, f.key))
  {
    hide Compilable;
  }
}

/** A file tree below one root, and what removing and renaming do to it. Links are leaves; nothing
    follows them. */
module FileTree {

  /** Components below the root; the root itself is []. */
  type Path = seq<string>

  type Bytes = seq<int>

  datatype Node = Dir | File(raw: Bytes) | Link

  type Tree = map<Path, Node>

  function Parent(p: Path): Path
    requires p != []
  {
    p[..|p| - 1]
  }

  /** `q` is `p` or lies below it. */
  predicate Under(p: Path, q: Path) {
    |p| <= |q| && q[..|p|] == p
  }

  predicate IsDir(t: Tree, p: Path) {
    p in t && t[p].Dir?
  }

  /** Every entry hangs in a directory. */
  predicate WellFormed(t: Tree) {
    IsDir(t, []) && forall p :: p in t && p != [] ==> IsDir(t, Parent(p))
  }

  function Without(t: Tree, p: Path): Tree {
    map q | q in t && !Under(p, q) :: t[q]
  }

  function Below(t: Tree, p: Path): set<Path> {
    set q | q in t && Under(p, q)
  }

  function Children(t: Tree, p: Path): set<Path> {
    set q | q in t && |q| == |p| + 1 && Under(p, q)
  }

  lemma {:induction false} AncestorsAreDirs(t: Tree, p: Path, q: Path)
    requires WellFormed(t) && q in t && Under(p, q) && p != q
    ensures IsDir(t, p)
    decreases |q|
  {
    if |q| == |p| + 1 {
      assert Parent(q) == p;
    } else {
      assert Parent(q)[..|p|] == q[..|p|];
      AncestorsAreDirs(t, p, Parent(q));
    }
  }

  /** Nothing lies below a path that is absent, a file or a link. */
  lemma LeafHasNothingBelow(t: Tree, p: Path)
    requires WellFormed(t) && !IsDir(t, p)
    ensures forall q :: q in t && Under(p, q) ==> q == p
  {
    forall q | q in t && Under(p, q) ensures q == p {
      if q != p {
        AncestorsAreDirs(t, p, q);
      }
    }
  }

  lemma WithoutIsWellFormed(t: Tree, p: Path)
    requires WellFormed(t) && p != []
    ensures WellFormed(Without(t, p))
  {
    var after := Without(t, p);
    forall q | q in after && q != [] ensures IsDir(after, Parent(q)) {
    }
  }

  /** The tree after `a` and everything below it moved to `b`. */
  function Moved(t: Tree, a: Path, b: Path): Tree {
    Without(t, a) + map r | r in ShiftedPaths(t, a, b) && |b| <= |r| && a + r[|b|..] in t :: t[a + r[|b|..]]
  }

  function ShiftedPaths(t: Tree, a: Path, b: Path): set<Path> {
    set q | q in t && Under(a, q) :: b + q[|a|..]
  }

  lemma ShiftedExactly(t: Tree, a: Path, b: Path, q: Path)
    ensures q in ShiftedPaths(t, a, b) <==> Under(b, q) && a + q[|b|..] in t
  {
    if Under(b, q) && a + q[|b|..] in t {
      var from := a + q[|b|..];
      assert Under(a, from) && b + from[|a|..] == q;
    }
    forall from | from in t && Under(a, from) && q == b + from[|a|..] ensures Under(b, q) && a + q[|b|..] in t {
      assert q[|b|..] == from[|a|..] && a + from[|a|..] == from;
    }
  }

  /** The entry of a moved tree at any path. */
  lemma MovedAt(t: Tree, a: Path, b: Path, q: Path)
    ensures Under(b, q) && a + q[|b|..] in t ==> q in Moved(t, a, b) && Moved(t, a, b)[q] == t[a + q[|b|..]]
    ensures !(Under(b, q) && a + q[|b|..] in t) ==>
              (q in Moved(t, a, b) <==> q in t && !Under(a, q)) && (q in Moved(t, a, b) ==> Moved(t, a, b)[q] == t[q])
  {
    ShiftedExactly(t, a, b, q);
  }

  /** The parent of a moved entry has moved along, unless the entry is the top of what moved. */
  lemma ShiftedParent(t: Tree, a: Path, b: Path, q: Path)
    requires WellFormed(t) && Under(b, q) && q != b && a + q[|b|..] in t && a != []
    ensures Under(b, Parent(q)) && a + Parent(q)[|b|..] == Parent(a + q[|b|..])
    ensures IsDir(Moved(t, a, b), Parent(q))
  {
    assert Parent(q)[|b|..] == Parent(a + q[|b|..])[|a|..];
    assert a + Parent(q)[|b|..] == Parent(a + q[|b|..]);
    MovedAt(t, a, b, Parent(q));
  }

  lemma MovedIsWellFormed(t: Tree, a: Path, b: Path)
    requires WellFormed(t) && a in t && a != [] && b != [] && b !in t && IsDir(t, Parent(b)) && !Under(a, b)
    ensures WellFormed(Moved(t, a, b))
  {
    hide Moved;
    var after := Moved(t, a, b);
    MovedAt(t, a, b, []);
    forall q | q in after && q != [] ensures IsDir(after, Parent(q)) {
      MovedAt(t, a, b, q);
      if Under(b, q) && a + q[|b|..] in t && q != b {
        ShiftedParent(t, a, b, q);
      } else {
        StayingParent(t, a, b, q);
      }
    }
  }

  lemma StayingParent(t: Tree, a: Path, b: Path, q: Path)
    requires WellFormed(t) && a in t && b !in t && !Under(a, b) && q != [] && b != []
    requires (q == b && IsDir(t, Parent(b))) || (q in t && !Under(a, q))
    ensures IsDir(Moved(t, a, b), Parent(q))
  {
    hide Moved;
    assert !Under(b, Parent(q)) by {
      if Under(b, Parent(q)) {
        AncestorOrSelf(t, b, Parent(q));
      }
    }
    MovedAt(t, a, b, Parent(q));
  }

  lemma AncestorOrSelf(t: Tree, p: Path, q: Path)
    requires WellFormed(t) && q in t && Under(p, q)
    ensures p in t
  {
    if p != q {
      AncestorsAreDirs(t, p, q);
    }
  }
}

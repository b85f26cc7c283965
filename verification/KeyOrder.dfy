/** Sorting of object fields by key, in code-point order: the sorted fields depend on the set of
    fields alone. */
module KeyOrder {
  import opened JsonValues

  /** Python's `<` on strings. */
  predicate Less(a: string, b: string) {
    b != [] && (a == [] || a[0] < b[0] || (a[0] == b[0] && Less(a[1..], b[1..])))
  }

  /** One string is less than another exactly when it is a proper prefix of it, or smaller at the first character in
      which they differ. */
  lemma {:induction false} LessByFirstDifference(a: string, b: string, i: nat)
    requires i <= |a| && i <= |b| && a[..i] == b[..i]
    requires i < |a| && i < |b| ==> a[i] != b[i]
    ensures Less(a, b) <==> i < |b| && (i < |a| ==> a[i] < b[i])
    decreases i
  {
    if i > 0 {
      assert a[0] == a[..i][0] && b[0] == b[..i][0];
      assert a[1..][..i - 1] == a[..i][1..] && b[1..][..i - 1] == b[..i][1..];
      LessByFirstDifference(a[1..], b[1..], i - 1);
    }
  }

  lemma {:induction false} LessIsTotal(a: string, b: string)
    ensures Less(a, b) || a == b || Less(b, a)
  {
    if a != [] && b != [] && a[0] == b[0] {
      LessIsTotal(a[1..], b[1..]);
      assert a == [a[0]] + a[1..] && b == [b[0]] + b[1..];
    }
  }

  lemma {:induction false} LessIsTransitive(a: string, b: string, c: string)
    requires Less(a, b) && Less(b, c)
    ensures Less(a, c)
  {
    if a != [] && a[0] == b[0] == c[0] {
      LessIsTransitive(a[1..], b[1..], c[1..]);
    }
  }

  lemma {:induction false} LessIsIrreflexive(a: string)
    ensures !Less(a, a)
  {
    if a != [] {
      LessIsIrreflexive(a[1..]);
    }
  }

  ghost predicate Sorted(fields: seq<Field>) {
    forall i, j :: 0 <= i < j < |fields| ==> Less(fields[i].key, fields[j].key)
  }

  /** Insertion in front of the first field whose key is not smaller. */
  function Insert(f: Field, fields: seq<Field>): (r: seq<Field>)
    ensures multiset(r) == multiset(fields) + multiset{f}
  {
    if fields == [] then [f]
    else if Less(fields[0].key, f.key) then
      assert fields == [fields[0]] + fields[1..];
      [fields[0]] + Insert(f, fields[1..])
    else
      [f] + fields
  }

  /** `sorted(fields)`: the same fields, reordered. */
  function Sort(fields: seq<Field>): (r: seq<Field>)
    ensures multiset(r) == multiset(fields)
  {
    if fields == [] then []
    else
      assert fields == [fields[0]] + fields[1..];
      Insert(fields[0], Sort(fields[1..]))
  }

  lemma MultisetMembers(a: seq<Field>, b: seq<Field>, f: Field)
    requires multiset(a) == multiset(b)
    ensures f in a <==> f in b
  {
    assert f in a <==> f in multiset(a);
    assert f in b <==> f in multiset(b);
  }

  lemma {:induction false} InsertSorts(f: Field, fields: seq<Field>)
    requires Sorted(fields)
    requires forall g :: g in fields ==> g.key != f.key
    ensures Sorted(Insert(f, fields))
  {
    if fields != [] {
      if Less(fields[0].key, f.key) {
        InsertSorts(f, fields[1..]);
        var rest := Insert(f, fields[1..]);
        forall j | 0 <= j < |rest|
          ensures Less(fields[0].key, rest[j].key)
        {
          assert rest[j] in multiset(rest);
          assert rest[j] == f || rest[j] in fields[1..];
        }
      } else {
        LessIsTotal(f.key, fields[0].key);
        assert fields[0] in fields;
        forall j | 0 <= j < |fields|
          ensures Less(f.key, fields[j].key)
        {
          if j > 0 {
            LessIsTransitive(f.key, fields[0].key, fields[j].key);
          }
        }
      }
    }
  }

  lemma {:induction false} SortSorts(fields: seq<Field>)
    requires DistinctKeys(fields)
    ensures Sorted(Sort(fields))
  {
    if fields != [] {
      SortSorts(fields[1..]);
      forall g | g in Sort(fields[1..])
        ensures g.key != fields[0].key
      {
        MultisetMembers(Sort(fields[1..]), fields[1..], g);
        var i :| 0 <= i < |fields[1..]| && fields[1..][i] == g;
        assert fields[i + 1] == g;
      }
      InsertSorts(fields[0], Sort(fields[1..]));
    }
  }

  lemma SortedIsDistinct(fields: seq<Field>)
    requires Sorted(fields)
    ensures DistinctKeys(fields)
  {
    forall i, j | 0 <= i < j < |fields|
      ensures fields[i].key != fields[j].key
    {
      LessIsIrreflexive(fields[i].key);
    }
  }

  /** Sorting forgets the order the fields came in, and nothing else. */
  lemma {:induction false} SortedIsCanonical(a: seq<Field>, b: seq<Field>)
    requires Sorted(a) && Sorted(b)
    requires forall f :: f in a <==> f in b
    ensures a == b
  {
    SortedIsDistinct(a);
    SortedIsDistinct(b);
    assert a != [] ==> a[0] in b;
    assert b != [] ==> b[0] in a;
    if a != [] && b != [] {
      assert a[0] in b && b[0] in a;
      if a[0] != b[0] {
        assert Less(b[0].key, a[0].key);
        assert Less(a[0].key, b[0].key);
        LessIsTransitive(a[0].key, b[0].key, a[0].key);
        LessIsIrreflexive(a[0].key);
      }
      forall f
        ensures f in a[1..] <==> f in b[1..]
      {
        if f in a[1..] {
          var i :| 1 <= i < |a| && a[i] == f;
          assert f in b;
        }
        if f in b[1..] {
          var i :| 1 <= i < |b| && b[i] == f;
          assert f in a;
        }
      }
      SortedIsCanonical(a[1..], b[1..]);
      assert a == [a[0]] + a[1..] && b == [b[0]] + b[1..];
    }
  }

  /** Reads do not see the order of distinct fields. */
  lemma GetSort(fields: seq<Field>, key: string)
    requires DistinctKeys(fields)
    ensures Get(Sort(fields), key) == Get(fields, key)
  {
    SortSorts(fields);
    SortedIsDistinct(Sort(fields));
    var r, s := Get(fields, key), Get(Sort(fields), key);
    GetFinds(fields, key);
    GetFinds(Sort(fields), key);
    if r.Some? {
      MultisetMembers(fields, Sort(fields), Field(key, r.value));
      GetUnique(Sort(fields), Field(key, r.value));
    } else if s.Some? {
      MultisetMembers(fields, Sort(fields), Field(key, s.value));
      GetUnique(fields, Field(key, s.value));
    }
  }
}

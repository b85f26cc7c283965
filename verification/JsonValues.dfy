/** JSON documents as Python holds them after loading: an object is an ordered list of
    fields, looked up by its first field of that name and assigned in place or at the end. */
module JsonValues {
  datatype Option<+T> = None | Some(value: T)

  datatype Result<+T, +E> = Ok(value: T) | Err(error: E)

  datatype Json =
    | Null
    | Bool(flag: bool)
    | Num(number: int)
    | Str(text: string)
    | Arr(items: seq<Json>)
    | Obj(fields: seq<Field>)

  datatype Field = Field(key: string, value: Json)

  /** `mapping.get(key)`. */
  function Get(fields: seq<Field>, key: string): Option<Json> {
    if fields == [] then None
    else if fields[0].key == key then Some(fields[0].value)
    else Get(fields[1..], key)
  }

  lemma {:induction false} GetFinds(fields: seq<Field>, key: string)
    ensures Get(fields, key).Some? ==> Field(key, Get(fields, key).value) in fields
    ensures Get(fields, key).None? ==> forall f :: f in fields ==> f.key != key
  {
    if fields != [] && fields[0].key != key {
      GetFinds(fields[1..], key);
    }
  }

  /** `mapping[key] = value`. */
  function Put(fields: seq<Field>, key: string, value: Json): seq<Field> {
    if fields == [] then [Field(key, value)]
    else if fields[0].key == key then [Field(key, value)] + fields[1..]
    else [fields[0]] + Put(fields[1..], key, value)
  }

  /** An object keeps every key at most once. */
  predicate DistinctKeys(fields: seq<Field>) {
    forall i, j :: 0 <= i < j < |fields| ==> fields[i].key != fields[j].key
  }

  /** A write is read back, and reads of every other key are left alone. */
  lemma {:induction false} GetPut(fields: seq<Field>, key: string, value: Json, other: string)
    ensures Get(Put(fields, key, value), key) == Some(value)
    ensures other != key ==> Get(Put(fields, key, value), other) == Get(fields, other)
  {
    if fields != [] && fields[0].key != key {
      GetPut(fields[1..], key, value, other);
    }
  }

  /** With distinct keys, the field found is the only field of that name. */
  lemma {:induction false} GetUnique(fields: seq<Field>, f: Field)
    requires DistinctKeys(fields) && f in fields
    ensures Get(fields, f.key) == Some(f.value)
  {
    if fields[0] != f {
      assert f in fields[1..];
      var i :| 1 <= i < |fields| && fields[i] == f;
      assert fields[0].key != fields[i].key;
      GetUnique(fields[1..], f);
    }
  }
}

/** The canonical text of src/aar/canonical.py: one text a value, whatever the order its keys were inserted in. */
module CanonicalJson {
  import opened JsonValues
  import opened KeyOrder

  // What may be encoded

  /** A Python value handed to the encoder; a mapping key that is no string has none. */
  datatype Value =
    | None_
    | Boolean(flag: bool)
    | Integer(number: int)
    | Text(text: string)
    | Floating
    | Sequence(items: seq<Value>)
    | Mapping(entries: seq<Entry>)
    | Other

  datatype Entry = Entry(key: Option<string>, value: Value)

  /** `_json_value`; none where it raises. */
  function JsonValue(value: Value): Option<Json>
    decreases value
  {
    match value
    case None_ => Some(Null)
    case Boolean(flag) => Some(Bool(flag))
    case Integer(number) => Some(Num(number))
    case Text(text) => Some(Str(text))
    case Sequence(items) => (match JsonItems(items) case None => None case Some(a) => Some(Arr(a)))
    case Mapping(entries) => (match JsonEntries(entries) case None => None case Some(o) => Some(Obj(o)))
    case _ => None
  }

  function JsonItems(items: seq<Value>): Option<seq<Json>>
    decreases items
  {
    if items == [] then Some([])
    else
      match (JsonValue(items[0]), JsonItems(items[1..]))
      case (Some(first), Some(rest)) => Some([first] + rest)
      case _ => None
  }

  function JsonEntries(entries: seq<Entry>): Option<seq<Field>>
    decreases entries
  {
    if entries == [] then Some([])
    else
      assert entries[0].value < entries[0];
      match (entries[0].key, JsonValue(entries[0].value), JsonEntries(entries[1..]))
      case (Some(key), Some(first), Some(rest)) => Some([Field(key, first)] + rest)
      case _ => None
  }

  /** The value a path of positions leads to. */
  function Inside(value: Value, path: seq<nat>): Option<Value>
    decreases |path|
  {
    if path == [] then Some(value)
    else
      match value
      case Sequence(items) => if path[0] < |items| then Inside(items[path[0]], path[1..]) else None
      case Mapping(entries) => if path[0] < |entries| then Inside(entries[path[0]].value, path[1..]) else None
      case _ => None
  }

  /** A float, a value of no JSON kind, or a mapping with a key that is no string. */
  predicate Unencodable(value: Value) {
    || value.Floating? || value.Other?
    || (value.Mapping? && exists i :: 0 <= i < |value.entries| && value.entries[i].key.None?)
  }

  ghost predicate HoldsUnencodable(value: Value) {
    exists path :: Inside(value, path).Some? && Unencodable(Inside(value, path).value)
  }

  lemma HoldsThrough(value: Value, i: nat, inner: Value)
    requires (value.Sequence? && i < |value.items| && value.items[i] == inner)
             || (value.Mapping? && i < |value.entries| && value.entries[i].value == inner)
    ensures HoldsUnencodable(inner) ==> HoldsUnencodable(value)
  {
    if HoldsUnencodable(inner) {
      var path :| Inside(inner, path).Some? && Unencodable(Inside(inner, path).value);
      assert ([i] + path)[1..] == path;
      assert Inside(value, [i] + path) == Inside(inner, path);
    }
  }

  /** The encoder raises exactly when something unencodable sits anywhere in the value. */
  lemma {:induction false} EncoderRefusesExactly(value: Value)
    ensures JsonValue(value).None? <==> HoldsUnencodable(value)
    decreases value
  {
    assert Inside(value, []) == Some(value);
    match value
    case Sequence(items) =>
      ItemsEncode(items);
      forall i | 0 <= i < |items| ensures JsonValue(items[i]).None? <==> HoldsUnencodable(items[i]) {
        EncoderRefusesExactly(items[i]);
        HoldsThrough(value, i, items[i]);
      }
      if HoldsUnencodable(value) {
        var path :| Inside(value, path).Some? && Unencodable(Inside(value, path).value);
        assert path != [] && Inside(value, path) == Inside(items[path[0]], path[1..]);
      } else {
        forall i | 0 <= i < |items| ensures !HoldsUnencodable(items[i]) {
          HoldsThrough(value, i, items[i]);
        }
      }
    case Mapping(entries) =>
      EntriesEncode(entries);
      forall i | 0 <= i < |entries| ensures JsonValue(entries[i].value).None? <==> HoldsUnencodable(entries[i].value) {
        assert entries[i].value < entries[i];
        EncoderRefusesExactly(entries[i].value);
        HoldsThrough(value, i, entries[i].value);
      }
      if HoldsUnencodable(value) {
        var path :| Inside(value, path).Some? && Unencodable(Inside(value, path).value);
        if path != [] {
          assert Inside(value, path) == Inside(entries[path[0]].value, path[1..]);
        }
      } else {
        assert !Unencodable(value);
        forall i | 0 <= i < |entries| ensures !HoldsUnencodable(entries[i].value) {
          HoldsThrough(value, i, entries[i].value);
        }
      }
    case Floating =>
      assert Unencodable(value);
    case Other =>
      assert Unencodable(value);
    case _ =>
      forall path | Inside(value, path).Some? ensures !Unencodable(Inside(value, path).value) {
        assert path == [];
      }
  }

  lemma {:induction false} ItemsEncode(items: seq<Value>)
    ensures JsonItems(items).Some? <==> forall i :: 0 <= i < |items| ==> JsonValue(items[i]).Some?
    decreases |items|
  {
    hide JsonValue;
    if items != [] {
      ItemsEncode(items[1..]);
      assert forall i :: 1 <= i < |items| ==> items[i] == items[1..][i - 1];
    }
  }

  lemma {:induction false} EntriesEncode(entries: seq<Entry>)
    ensures JsonEntries(entries).Some? <==>
            forall i :: 0 <= i < |entries| ==> entries[i].key.Some? && JsonValue(entries[i].value).Some?
    decreases |entries|
  {
    hide JsonValue;
    if entries != [] {
      EntriesEncode(entries[1..]);
      assert forall i :: 1 <= i < |entries| ==> entries[i] == entries[1..][i - 1];
    }
  }

  // Objects keep each key once, at every depth

  predicate AllDistinct(v: Json) {
    match v
    case Arr(items) => forall i :: 0 <= i < |items| ==> AllDistinct(items[i])
    case Obj(fields) => DistinctKeys(fields) && forall i :: 0 <= i < |fields| ==> AllDistinct(fields[i].value)
    case _ => true
  }

  /** `sort_keys=True`, at every depth. */
  function Norm(v: Json): Json {
    match v
    case Arr(items) => Arr(NormItems(items))
    case Obj(fields) => Obj(Sort(NormFields(fields)))
    case _ => v
  }

  function NormItems(items: seq<Json>): seq<Json> {
    if items == [] then [] else [Norm(items[0])] + NormItems(items[1..])
  }

  function NormFields(fields: seq<Field>): seq<Field> {
    if fields == [] then [] else [Field(fields[0].key, Norm(fields[0].value))] + NormFields(fields[1..])
  }

  /** The same JSON value, up to the order of keys. */
  ghost predicate Same(v: Json, w: Json)
    decreases v
  {
    match (v, w)
    case (Arr(a), Arr(b)) => |a| == |b| && forall i :: 0 <= i < |a| ==> Same(a[i], b[i])
    case (Obj(a), Obj(b)) =>
      (forall i :: 0 <= i < |a| ==> HasTwin(a[i], b)) && forall j :: 0 <= j < |b| ==> HasKey(a, b[j].key)
    case _ => v == w
  }

  ghost predicate HasTwin(f: Field, fields: seq<Field>)
    decreases f
  {
    exists j :: 0 <= j < |fields| && f.key == fields[j].key && Same(f.value, fields[j].value)
  }

  ghost predicate HasKey(fields: seq<Field>, key: string) {
    exists i :: 0 <= i < |fields| && fields[i].key == key
  }

  lemma {:induction false} NormItemsAt(items: seq<Json>)
    ensures |NormItems(items)| == |items|
    ensures forall i :: 0 <= i < |items| ==> NormItems(items)[i] == Norm(items[i])
  {
    if items != [] {
      NormItemsAt(items[1..]);
    }
  }

  lemma {:induction false} NormFieldsAt(fields: seq<Field>)
    ensures |NormFields(fields)| == |fields|
    ensures forall i :: 0 <= i < |fields| ==> NormFields(fields)[i] == Field(fields[i].key, Norm(fields[i].value))
  {
    if fields != [] {
      NormFieldsAt(fields[1..]);
    }
  }

  lemma NormFieldsSort(fields: seq<Field>)
    requires DistinctKeys(fields)
    ensures DistinctKeys(NormFields(fields)) && Sorted(Sort(NormFields(fields)))
  {
    NormFieldsAt(fields);
    SortSorts(NormFields(fields));
  }

  /** Values that are the same normalise to one value. */
  lemma {:induction false} SameNorm(v: Json, w: Json)
    requires AllDistinct(v) && AllDistinct(w) && Same(v, w)
    ensures Norm(v) == Norm(w)
    decreases v
  {
    match (v, w) {
      case (Arr(a), Arr(b)) =>
        NormItemsAt(a);
        NormItemsAt(b);
        forall i | 0 <= i < |a|
          ensures NormItems(a)[i] == NormItems(b)[i]
        {
          SameNorm(a[i], b[i]);
        }
        assert NormItems(a) == NormItems(b);
      case (Obj(a), Obj(b)) =>
        forall i | 0 <= i < |a|
          ensures NormField(a[i]) in NormFields(b)
        {
          assert HasTwin(a[i], b);
          var j :| 0 <= j < |b| && a[i].key == b[j].key && Same(a[i].value, b[j].value);
          SameNorm(a[i].value, b[j].value);
          NormFieldsAt(b);
          assert NormFields(b)[j] == NormField(a[i]);
        }
        SameFields(a, b);
      case _ =>
    }
  }

  function NormField(f: Field): Field {
    Field(f.key, Norm(f.value))
  }

  lemma SameFields(a: seq<Field>, b: seq<Field>)
    requires DistinctKeys(a) && DistinctKeys(b)
    requires forall i :: 0 <= i < |a| ==> NormField(a[i]) in NormFields(b)
    requires forall j :: 0 <= j < |b| ==> HasKey(a, b[j].key)
    ensures Sort(NormFields(a)) == Sort(NormFields(b))
  {
    NormFieldsAt(a);
    NormFieldsAt(b);
    NormFieldsSort(a);
    NormFieldsSort(b);
    forall i | 0 <= i < |a|
      ensures NormFields(a)[i] in NormFields(b)
    {
      assert NormField(a[i]) in NormFields(b);
    }
    forall j | 0 <= j < |b|
      ensures HasKey(NormFields(a), NormFields(b)[j].key)
    {
      var i :| 0 <= i < |a| && a[i].key == b[j].key;
      assert NormFields(a)[i].key == NormFields(b)[j].key;
    }
    SortForgetsOrder(NormFields(a), NormFields(b));
  }

  lemma SortForgetsOrder(a: seq<Field>, b: seq<Field>)
    requires DistinctKeys(a) && DistinctKeys(b)
    requires forall i :: 0 <= i < |a| ==> a[i] in b
    requires forall j :: 0 <= j < |b| ==> HasKey(a, b[j].key)
    ensures Sort(a) == Sort(b)
  {
    SortSorts(a);
    SortSorts(b);
    forall f
      ensures f in Sort(a) <==> f in Sort(b)
    {
      MultisetMembers(Sort(a), a, f);
      MultisetMembers(Sort(b), b, f);
    }
    SortedIsCanonical(Sort(a), Sort(b));
  }

  /** Values that normalise to one value are the same. */
  lemma {:induction false} NormSame(v: Json, w: Json)
    requires Norm(v) == Norm(w)
    ensures Same(v, w)
    decreases v
  {
    match (v, w) {
      case (Arr(a), Arr(b)) =>
        NormItemsAt(a);
        NormItemsAt(b);
        forall i | 0 <= i < |a|
          ensures Same(a[i], b[i])
        {
          assert NormItems(a)[i] == NormItems(b)[i];
          NormSame(a[i], b[i]);
        }
      case (Obj(a), Obj(b)) =>
        forall i | 0 <= i < |a|
          ensures HasTwin(a[i], b)
        {
          var j := Counterpart(a, b, i);
          NormSame(a[i].value, b[j].value);
        }
        forall j | 0 <= j < |b|
          ensures HasKey(a, b[j].key)
        {
          var i := Counterpart(b, a, j);
        }
      case _ =>
    }
  }

  lemma Counterpart(a: seq<Field>, b: seq<Field>, i: nat) returns (j: nat)
    requires i < |a| && Sort(NormFields(a)) == Sort(NormFields(b))
    ensures j < |b| && a[i].key == b[j].key && Norm(a[i].value) == Norm(b[j].value)
  {
    NormFieldsAt(a);
    NormFieldsAt(b);
    var f := NormFields(a)[i];
    MultisetMembers(Sort(NormFields(a)), NormFields(a), f);
    MultisetMembers(Sort(NormFields(b)), NormFields(b), f);
    j :| 0 <= j < |b| && NormFields(b)[j] == f;
  }

  lemma {:induction false} NormIsDistinct(v: Json)
    requires AllDistinct(v)
    ensures AllDistinct(Norm(v))
  {
    match v
    case Arr(items) =>
      NormItemsAt(items);
      forall i | 0 <= i < |items|
        ensures AllDistinct(NormItems(items)[i])
      {
        NormIsDistinct(items[i]);
      }
    case Obj(fields) =>
      NormFieldsAt(fields);
      NormFieldsSort(fields);
      var sorted := Sort(NormFields(fields));
      SortedIsDistinct(sorted);
      forall k | 0 <= k < |sorted|
        ensures AllDistinct(sorted[k].value)
      {
        MultisetMembers(sorted, NormFields(fields), sorted[k]);
        var i :| 0 <= i < |fields| && NormFields(fields)[i] == sorted[k];
        NormIsDistinct(fields[i].value);
      }
    case _ =>
  }

  // The text

  function Digit(d: nat): char
    requires d < 10
  {
    "0123456789"[d]
  }

  function Digits(n: nat): string {
    if n < 10 then [Digit(n)] else Digits(n / 10) + [Digit(n % 10)]
  }

  function WriteNumber(n: int): string {
    if n < 0 then "-" + Digits(-n) else Digits(n)
  }

  function HexDigit(d: nat): char
    requires d < 16
  {
    "0123456789abcdef"[d]
  }

  const QUOTE := '\"'
  const BACKSLASH := '\\'

  /** How one character appears inside quotes (section 7 of RFC 8259). */
  function Escape(c: char): string {
    if c == QUOTE then [BACKSLASH, QUOTE]
    else if c == BACKSLASH then [BACKSLASH, BACKSLASH]
    else if c == '\n' then [BACKSLASH, 'n']
    else if c == '\r' then [BACKSLASH, 'r']
    else if c == '\t' then [BACKSLASH, 't']
    else if c as int == 8 then [BACKSLASH, 'b']
    else if c as int == 12 then [BACKSLASH, 'f']
    else if (c as int) < 32 then [BACKSLASH, 'u', '0', '0', HexDigit(c as int / 16), HexDigit(c as int % 16)]
    else [c]
  }

  function EscapeAll(text: string): string {
    if text == [] then [] else Escape(text[0]) + EscapeAll(text[1..])
  }

  function WriteString(text: string): string {
    [QUOTE] + EscapeAll(text) + [QUOTE]
  }

  /** The text of a value as it stands: no spaces, fields in their order. */
  function Write(v: Json): string
    decreases v, 0
  {
    match v
    case Null => "null"
    case Bool(flag) => if flag then "true" else "false"
    case Num(n) => WriteNumber(n)
    case Str(text) => WriteString(text)
    case Arr(items) => if items == [] then "[]" else "[" + WriteItems(items) + "]"
    case Obj(fields) => if fields == [] then "{}" else "{" + WriteFields(fields) + "}"
  }

  function WriteItems(items: seq<Json>): string
    requires items != []
    decreases items
  {
    if |items| == 1 then Write(items[0]) else Write(items[0]) + "," + WriteItems(items[1..])
  }

  function WriteField(f: Field): string
    decreases f
  {
    WriteString(f.key) + ":" + Write(f.value)
  }

  function WriteFields(fields: seq<Field>): string
    requires fields != []
    decreases fields
  {
    if |fields| == 1 then WriteField(fields[0]) else WriteField(fields[0]) + "," + WriteFields(fields[1..])
  }

  /** `canonical_json_bytes`, before UTF-8. */
  function Canonical(v: Json): string {
    Write(Norm(v))
  }
}

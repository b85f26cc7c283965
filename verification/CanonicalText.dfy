/** The canonical text character by character: what is written for a value, and that nothing else is. */
module CanonicalText {
  import opened JsonValues
  import opened CanonicalJson

  // What the encoder takes in

  /** The JSON value holds what the Python value holds, place by place. */
  predicate Mirrors(value: Value, json: Json)
    decreases value
  {
    match (value, json)
    case (None_, Null) => true
    case (Boolean(a), Bool(b)) => a == b
    case (Integer(a), Num(b)) => a == b
    case (Text(a), Str(b)) => a == b
    case (Sequence(a), Arr(b)) => |a| == |b| && forall i :: 0 <= i < |a| ==> Mirrors(a[i], b[i])
    case (Mapping(a), Obj(b)) =>
      |a| == |b| && forall i :: 0 <= i < |a| ==> MirrorsEntry(a[i], b[i])
    case _ => false
  }

  predicate MirrorsEntry(entry: Entry, f: Field)
    decreases entry
  {
    entry.key == Some(f.key) && Mirrors(entry.value, f.value)
  }

  /** What the encoder hands on is the value itself, nothing lost, added or moved. */
  lemma {:induction false} EncodingMirrors(value: Value, json: Json)
    ensures JsonValue(value) == Some(json) <==> Mirrors(value, json)
    decreases value
  {
    match value
    case Sequence(items) =>
      if json.Arr? {
        ItemsMirror(items, json.items);
      }
    case Mapping(entries) =>
      if json.Obj? {
        EntriesMirror(entries, json.fields);
      }
    case _ =>
  }

  lemma {:induction false} ItemsMirror(items: seq<Value>, jsons: seq<Json>)
    ensures JsonItems(items) == Some(jsons) <==>
            |items| == |jsons| && forall i :: 0 <= i < |items| ==> Mirrors(items[i], jsons[i])
    decreases items
  {
    hide JsonValue, Mirrors;
    if items != [] && jsons != [] {
      EncodingMirrors(items[0], jsons[0]);
      ItemsMirror(items[1..], jsons[1..]);
      assert jsons == [jsons[0]] + jsons[1..];
      assert forall i :: 1 <= i < |items| ==> items[i] == items[1..][i - 1];
      assert forall i :: 1 <= i < |jsons| ==> jsons[i] == jsons[1..][i - 1];
    }
  }

  lemma {:induction false} EntriesMirror(entries: seq<Entry>, fields: seq<Field>)
    ensures JsonEntries(entries) == Some(fields) <==>
            |entries| == |fields| && forall i :: 0 <= i < |entries| ==> MirrorsEntry(entries[i], fields[i])
    decreases entries
  {
    hide JsonValue, Mirrors;
    if entries != [] && fields != [] {
      assert entries[0].value < entries[0];
      EncodingMirrors(entries[0].value, fields[0].value);
      EntriesMirror(entries[1..], fields[1..]);
      assert fields == [fields[0]] + fields[1..];
      assert forall i :: 1 <= i < |entries| ==> entries[i] == entries[1..][i - 1];
      assert forall i :: 1 <= i < |fields| ==> fields[i] == fields[1..][i - 1];
    }
  }

  // Strings

  /** A character that stands for itself inside quotes: no control character, quote or backslash. */
  predicate Plain(c: char) {
    (c as int) >= 32 && c != '"' && c != '\\'
  }

  /** The value of a lower-case hexadecimal digit. */
  predicate IsHex(c: char, d: nat) {
    (d < 10 && c as int == '0' as int + d) || (10 <= d < 16 && c as int == 'a' as int + (d - 10))
  }

  /** What is written for one character: itself when it is plain, one of seven short forms, or for any other control
      character its code in four lower-case digits. */
  predicate Stands(text: string, c: char) {
    if Plain(c) then text == [c]
    else if c == '"' then text == "\\\""
    else if c == '\\' then text == "\\\\"
    else if c as int == 8 then text == "\\b"
    else if c as int == 9 then text == "\\t"
    else if c as int == 10 then text == "\\n"
    else if c as int == 12 then text == "\\f"
    else if c as int == 13 then text == "\\r"
    else |text| == 6 && text[..4] == "\\u00" && IsHex(text[4], c as int / 16) && IsHex(text[5], c as int % 16)
  }

  lemma EscapeStands(c: char)
    ensures Stands(Escape(c), c)
  {
  }

  lemma {:induction false} EscapesJoin(a: string, b: string)
    ensures EscapeAll(a + b) == EscapeAll(a) + EscapeAll(b)
    decreases |a|
  {
    if a == [] {
      assert a + b == b;
    } else {
      assert (a + b)[1..] == a[1..] + b;
      EscapesJoin(a[1..], b);
    }
  }

  /** Between the quotes every character is written where it stands, and nothing besides. */
  lemma StringIsWritten(a: string, c: char, b: string)
    ensures WriteString(a) == "\"" + EscapeAll(a) + "\"" && EscapeAll([]) == []
    ensures EscapeAll(a + [c] + b) == EscapeAll(a) + Escape(c) + EscapeAll(b)
    ensures Stands(Escape(c), c)
  {
    hide Escape, Stands;
    EscapeStands(c);
    EscapesJoin(a + [c], b);
    EscapesJoin(a, [c]);
    OneEscape(c);
  }

  lemma OneEscape(c: char)
    ensures EscapeAll([c]) == Escape(c)
  {
    hide Escape;
    assert [c][1..] == [];
  }

  /** A string of plain characters is written as it is. */
  lemma PlainIsWrittenAsItIs(text: string)
    requires forall i :: 0 <= i < |text| ==> Plain(text[i])
    ensures WriteString(text) == "\"" + text + "\""
  {
    PlainIsKept(text);
  }

  lemma {:induction false} PlainIsKept(text: string)
    requires forall i :: 0 <= i < |text| ==> Plain(text[i])
    ensures EscapeAll(text) == text
    decreases |text|
  {
    if text != [] {
      PlainIsKept(text[1..]);
      assert Plain(text[0]);
      EscapeStands(text[0]);
      assert text == [text[0]] + text[1..];
    }
  }

  // Nothing insignificant

  predicate Blank(c: char) {
    c == ' ' || c == '\t' || c == '\n' || c == '\r'
  }

  /** No key and no string inside the value holds a blank. */
  predicate Tight(v: Json)
    decreases v
  {
    match v
    case Str(text) => TightText(text)
    case Arr(items) => forall i :: 0 <= i < |items| ==> Tight(items[i])
    case Obj(fields) => forall i :: 0 <= i < |fields| ==> TightText(fields[i].key) && Tight(fields[i].value)
    case _ => true
  }

  predicate TightText(text: string) {
    forall i :: 0 <= i < |text| ==> !Blank(text[i])
  }

  lemma {:induction false} DigitsAreTight(n: nat)
    ensures TightText(Digits(n))
  {
    if n >= 10 {
      DigitsAreTight(n / 10);
    }
  }

  lemma {:induction false} EscapedIsTight(text: string)
    requires TightText(text)
    ensures TightText(EscapeAll(text))
    decreases |text|
  {
    hide Escape;
    if text != [] {
      EscapedIsTight(text[1..]);
      CharacterIsTight(text[0]);
      Joined(Escape(text[0]), EscapeAll(text[1..]));
    }
  }

  lemma CharacterIsTight(c: char)
    requires c != ' '
    ensures TightText(Escape(c))
  {
    if (c as int) < 32 {
      HexIsTight(c as int / 16);
      HexIsTight(c as int % 16);
    }
  }

  lemma HexIsTight(d: nat)
    requires d < 16
    ensures !Blank(HexDigit(d))
  {
  }

  lemma StringIsTight(text: string)
    requires TightText(text)
    ensures TightText(WriteString(text))
  {
    EscapedIsTight(text);
  }

  /** The text holds no blank of its own: a value without blanks is written without blanks. */
  lemma {:induction false} NothingInsignificant(v: Json)
    requires Tight(v)
    ensures TightText(Write(v))
    decreases v
  {
    hide TightText;
    WordsAreTight();
    match v
    case Num(n) => NumberIsTight(n);
    case Str(text) => StringIsTight(text);
    case Arr(items) =>
      if items != [] {
        ItemsAreTight(items);
        Joined("[", WriteItems(items));
        Joined("[" + WriteItems(items), "]");
      }
    case Obj(fields) =>
      if fields != [] {
        FieldsAreTight(fields);
        Joined("{", WriteFields(fields));
        Joined("{" + WriteFields(fields), "}");
      }
    case _ =>
  }

  lemma WordsAreTight()
    ensures TightText("null") && TightText("true") && TightText("false") && TightText("[]") && TightText("{}")
    ensures TightText("[") && TightText("]") && TightText("{") && TightText("}") && TightText(",") && TightText(":")
    ensures TightText("-")
  {
  }

  lemma NumberIsTight(n: int)
    ensures TightText(WriteNumber(n))
  {
    DigitsAreTight(if n < 0 then -n else n);
  }

  lemma Joined(a: string, b: string)
    requires TightText(a) && TightText(b)
    ensures TightText(a + b)
  {
  }

  lemma {:induction false} ItemsAreTight(items: seq<Json>)
    requires items != [] && forall i :: 0 <= i < |items| ==> Tight(items[i])
    ensures TightText(WriteItems(items))
    decreases items
  {
    hide TightText, Tight, Write;
    NothingInsignificant(items[0]);
    if |items| > 1 {
      WordsAreTight();
      ItemsAreTight(items[1..]);
      Joined(Write(items[0]), ",");
      Joined(Write(items[0]) + ",", WriteItems(items[1..]));
    }
  }

  lemma {:induction false} FieldsAreTight(fields: seq<Field>)
    requires fields != []
    requires forall i :: 0 <= i < |fields| ==> TightText(fields[i].key) && Tight(fields[i].value)
    ensures TightText(WriteFields(fields))
    decreases fields
  {
    hide TightText, Tight, Write, WriteString;
    WordsAreTight();
    NothingInsignificant(fields[0].value);
    StringIsTight(fields[0].key);
    Joined(WriteString(fields[0].key), ":");
    Joined(WriteString(fields[0].key) + ":", Write(fields[0].value));
    if |fields| > 1 {
      FieldsAreTight(fields[1..]);
      Joined(WriteField(fields[0]), ",");
      Joined(WriteField(fields[0]) + ",", WriteFields(fields[1..]));
    }
  }
}

/** The strict loader of src/aar/provider_ready_contract.py, over Python's JSON reader (RFC 8259, sections 2 to 7). */
module StrictLoader {
  import opened JsonValues
  import opened KeyOrder
  import opened CanonicalJson

  datatype LoadError =
    | ByteOrderMark | Syntax | TrailingData | DuplicateKey | FloatNotAllowed | Nonfinite | NotAnObject
    | LoneSurrogate  // Python's reader accepts one; no UTF-8 text can carry it back

  /** What was read, and the text after it. */
  datatype Read<+T> = Read(value: T, rest: string)

  type Reading<T> = Result<Read<T>, LoadError>

  predicate Space(c: char) {
    c == ' ' || c == '\t' || c == '\n' || c == '\r'
  }

  function SkipSpace(text: string): (r: string)
    ensures |r| <= |text|
  {
    if text != [] && Space(text[0]) then SkipSpace(text[1..]) else text
  }

  predicate IsDigit(c: char) {
    '0' <= c <= '9'
  }

  // Strings

  function HexValue(c: char): Option<nat> {
    if '0' <= c <= '9' then Some(c as int - '0' as int)
    else if 'a' <= c <= 'f' then Some(c as int - 'a' as int + 10)
    else if 'A' <= c <= 'F' then Some(c as int - 'A' as int + 10)
    else None
  }

  function Hex4(text: string): (r: Option<nat>)
    ensures r.Some? ==> |text| >= 4 && r.value < 0x1_0000
  {
    if |text| < 4 then None
    else
      match (HexValue(text[0]), HexValue(text[1]), HexValue(text[2]), HexValue(text[3]))
      case (Some(a), Some(b), Some(c), Some(d)) =>
        assert a < 16 && b < 16 && c < 16 && d < 16;
        Some(((a * 16 + b) * 16 + c) * 16 + d)
      case _ => None
  }

  /** `\uXXXX`, and the second half of a surrogate pair, after the `u`. */
  function ReadUnicode(text: string): (r: Reading<char>)
    ensures r.Ok? ==> |r.value.rest| < |text|
  {
    match Hex4(text)
    case None => Err(Syntax)
    case Some(code) =>
      if 0xD800 <= code < 0xDC00 then
        if |text| >= 6 && text[4] == BACKSLASH && text[5] == 'u' then
          match Hex4(text[6..])
          case None => Err(Syntax)
          case Some(low) =>
            if 0xDC00 <= low < 0xE000
            then Ok(Read((0x1_0000 + (code - 0xD800) * 0x400 + (low - 0xDC00)) as char, text[10..]))
            else Err(LoneSurrogate)
        else Err(LoneSurrogate)
      else if 0xDC00 <= code < 0xE000 then Err(LoneSurrogate)
      else Ok(Read(code as char, text[4..]))
  }

  /** One escape, after the backslash. */
  function ReadEscape(text: string): (r: Reading<char>)
    ensures r.Ok? ==> |r.value.rest| < |text|
  {
    if text == [] then Err(Syntax)
    else if text[0] == QUOTE || text[0] == BACKSLASH || text[0] == '/' then Ok(Read(text[0], text[1..]))
    else if text[0] == 'b' then Ok(Read(8 as char, text[1..]))
    else if text[0] == 'f' then Ok(Read(12 as char, text[1..]))
    else if text[0] == 'n' then Ok(Read('\n', text[1..]))
    else if text[0] == 'r' then Ok(Read('\r', text[1..]))
    else if text[0] == 't' then Ok(Read('\t', text[1..]))
    else if text[0] == 'u' then ReadUnicode(text[1..])
    else Err(Syntax)
  }

  /** The characters up to the closing quote. */
  function ReadChars(text: string): (r: Reading<string>)
    ensures r.Ok? ==> |r.value.rest| < |text|
    decreases |text|
  {
    if text == [] then Err(Syntax)
    else if text[0] == QUOTE then Ok(Read([], text[1..]))
    else if (text[0] as int) < 32 then Err(Syntax)
    else if text[0] == BACKSLASH then
      match ReadEscape(text[1..])
      case Err(e) => Err(e)
      case Ok(Read(c, rest)) =>
        match ReadChars(rest)
        case Err(e) => Err(e)
        case Ok(Read(more, after)) => Ok(Read([c] + more, after))
    else
      match ReadChars(text[1..])
      case Err(e) => Err(e)
      case Ok(Read(more, after)) => Ok(Read([text[0]] + more, after))
  }

  // Numbers

  function DigitRun(text: string): (r: nat)
    ensures r <= |text|
  {
    if text == [] || !IsDigit(text[0]) then 0 else 1 + DigitRun(text[1..])
  }

  function DigitsValue(digits: string): nat
    requires forall i :: 0 <= i < |digits| ==> IsDigit(digits[i])
  {
    if digits == [] then 0
    else
      assert IsDigit(digits[|digits| - 1]);
      10 * DigitsValue(digits[..|digits| - 1]) + (digits[|digits| - 1] as int - '0' as int)
  }

  lemma {:induction false} RunIsDigits(text: string)
    ensures forall i :: 0 <= i < DigitRun(text) ==> IsDigit(text[i])
  {
    if text != [] && IsDigit(text[0]) {
      RunIsDigits(text[1..]);
      forall i | 0 <= i < DigitRun(text)
        ensures IsDigit(text[i])
      {
        if i > 0 {
          assert text[i] == text[1..][i - 1];
        }
      }
    }
  }

  /** The number goes on with a fraction or an exponent. */
  predicate GoesOnAsFloat(text: string) {
    || (|text| > 1 && text[0] == '.' && IsDigit(text[1]))
    || (|text| > 1 && (text[0] == 'e' || text[0] == 'E') && IsDigit(text[1]))
    || (|text| > 2 && (text[0] == 'e' || text[0] == 'E') && (text[1] == '+' || text[1] == '-') && IsDigit(text[2]))
  }

  /** An unsigned number: a zero, or digits that start with none. */
  function ReadDigits(text: string): (r: Reading<int>)
    ensures r.Ok? ==> |r.value.rest| < |text|
  {
    if text == [] || !IsDigit(text[0]) then Err(Syntax)
    else
      RunIsDigits(text);
      var n := if text[0] == '0' then 1 else DigitRun(text);
      if GoesOnAsFloat(text[n..]) then Err(FloatNotAllowed)
      else Ok(Read(DigitsValue(text[..n]), text[n..]))
  }

  function ReadNumber(text: string): (r: Reading<Json>)
    ensures r.Ok? ==> |r.value.rest| < |text|
  {
    if text != [] && text[0] == '-' then
      match ReadDigits(text[1..])
      case Err(e) => Err(e)
      case Ok(Read(n, rest)) => Ok(Read(Num(-n), rest))
    else
      match ReadDigits(text)
      case Err(e) => Err(e)
      case Ok(Read(n, rest)) => Ok(Read(Num(n), rest))
  }

  // Values

  /** A scalar other than a string. */
  function ReadWord(text: string): (r: Reading<Json>)
    ensures r.Ok? ==> |r.value.rest| < |text|
  {
    if "null" <= text then Ok(Read(Null, text[4..]))
    else if "true" <= text then Ok(Read(Bool(true), text[4..]))
    else if "false" <= text then Ok(Read(Bool(false), text[5..]))
    else if "NaN" <= text || "Infinity" <= text || "-Infinity" <= text then Err(Nonfinite)
    else ReadNumber(text)
  }

  /** `object_pairs_hook` rejects a repeated key when an object closes; without `strict` there is no hook. */
  function ReadValue(text: string, strict: bool): (r: Reading<Json>)
    ensures r.Ok? ==> |r.value.rest| < |text|
    decreases |text|, 0
  {
    if text == [] then Err(Syntax)
    else if text[0] == QUOTE then
      match ReadChars(text[1..])
      case Err(e) => Err(e)
      case Ok(Read(s, rest)) => Ok(Read(Str(s), rest))
    else if text[0] == '[' then
      var inside := SkipSpace(text[1..]);
      if inside != [] && inside[0] == ']' then Ok(Read(Arr([]), inside[1..]))
      else
        (match ReadItems(inside, strict)
         case Err(e) => Err(e)
         case Ok(Read(items, rest)) => Ok(Read(Arr(items), rest)))
    else if text[0] == '{' then
      var inside := SkipSpace(text[1..]);
      if inside != [] && inside[0] == '}' then Ok(Read(Obj([]), inside[1..]))
      else
        (match ReadMembers(inside, strict)
         case Err(e) => Err(e)
         case Ok(Read(fields, rest)) =>
           if strict && !DistinctKeys(fields) then Err(DuplicateKey) else Ok(Read(Obj(fields), rest)))
    else ReadWord(text)
  }

  function ReadItems(text: string, strict: bool): (r: Reading<seq<Json>>)
    ensures r.Ok? ==> |r.value.rest| < |text|
    decreases |text|, 1
  {
    match ReadValue(text, strict)
    case Err(e) => Err(e)
    case Ok(Read(first, after)) =>
      var next := SkipSpace(after);
      if next != [] && next[0] == ']' then Ok(Read([first], next[1..]))
      else if next != [] && next[0] == ',' then
        match ReadItems(SkipSpace(next[1..]), strict)
        case Err(e) => Err(e)
        case Ok(Read(more, rest)) => Ok(Read([first] + more, rest))
      else Err(Syntax)
  }

  /** A key, a colon and a value. */
  function ReadMember(text: string, strict: bool): (r: Reading<Field>)
    ensures r.Ok? ==> |r.value.rest| < |text|
    decreases |text|, 1
  {
    if text == [] || text[0] != QUOTE then Err(Syntax)
    else
      match ReadChars(text[1..])
      case Err(e) => Err(e)
      case Ok(Read(key, after)) =>
        var colon := SkipSpace(after);
        if colon == [] || colon[0] != ':' then Err(Syntax)
        else
          match ReadValue(SkipSpace(colon[1..]), strict)
          case Err(e) => Err(e)
          case Ok(Read(value, rest)) => Ok(Read(Field(key, value), rest))
  }

  function ReadMembers(text: string, strict: bool): (r: Reading<seq<Field>>)
    ensures r.Ok? ==> |r.value.rest| < |text|
    decreases |text|, 2
  {
    match ReadMember(text, strict)
    case Err(e) => Err(e)
    case Ok(Read(first, after)) =>
      var next := SkipSpace(after);
      if next != [] && next[0] == '}' then Ok(Read([first], next[1..]))
      else if next != [] && next[0] == ',' then
        match ReadMembers(SkipSpace(next[1..]), strict)
        case Err(e) => Err(e)
        case Ok(Read(more, rest)) => Ok(Read([first] + more, rest))
      else Err(Syntax)
  }

  /** `json.loads`, with or without the hook. */
  function Loads(text: string, strict: bool): Result<Json, LoadError> {
    match ReadValue(SkipSpace(text), strict)
    case Err(e) => Err(e)
    case Ok(Read(v, rest)) => if SkipSpace(rest) == [] then Ok(v) else Err(TrailingData)
  }

  /** `load_provider_ready_json_bytes`, on decoded text. */
  function Load(text: string): Result<Json, LoadError> {
    if text != [] && text[0] as int == 0xFEFF then Err(ByteOrderMark)
    else
      match Loads(text, true)
      case Err(e) => Err(e)
      case Ok(v) => if v.Obj? then Ok(v) else Err(NotAnObject)
  }

  /** `reject_duplicate_object_keys`. */
  method RejectDuplicateKeys(pairs: seq<Field>) returns (r: Result<seq<Field>, LoadError>)
    ensures r == if DistinctKeys(pairs) then Ok(pairs) else Err(DuplicateKey)
  {
    var result: seq<Field> := [];
    for i := 0 to |pairs|
      invariant result == pairs[..i] && DistinctKeys(result)
    {
      if exists j :: 0 <= j < |result| && result[j].key == pairs[i].key {
        return Err(DuplicateKey);
      }
      result := result + [pairs[i]];
    }
    assert result == pairs;
    return Ok(result);
  }

  // Reading back what was written

  /** What may follow a value: nothing, or the punctuation between values. */
  predicate Ends(rest: string) {
    rest == [] || rest[0] == ',' || rest[0] == ']' || rest[0] == '}'
  }

  predicate Starts(c: char) {
    !Space(c) && c != ']' && c != '}'
  }

  lemma StartsSkip(text: string)
    requires text == [] || !Space(text[0])
    ensures SkipSpace(text) == text
  {
  }

  lemma {:induction false} DigitsAre(n: nat)
    ensures Digits(n) != [] && (forall i :: 0 <= i < |Digits(n)| ==> IsDigit(Digits(n)[i]))
    ensures DigitsValue(Digits(n)) == n
    ensures n > 0 ==> Digits(n)[0] != '0'
    ensures n == 0 ==> Digits(n) == "0"
  {
    var ds := Digits(n);
    if n < 10 {
      assert ds[..0] == [];
      assert DigitsValue(ds) == n;
    } else {
      DigitsAre(n / 10);
      assert ds[..|ds| - 1] == Digits(n / 10);
    }
  }

  lemma {:induction false} RunOfDigits(digits: string, rest: string)
    requires forall i :: 0 <= i < |digits| ==> IsDigit(digits[i])
    requires rest == [] || !IsDigit(rest[0])
    ensures DigitRun(digits + rest) == |digits|
  {
    if digits == [] {
      assert digits + rest == rest;
    } else {
      RunOfDigits(digits[1..], rest);
      assert (digits + rest)[1..] == digits[1..] + rest;
    }
  }

  lemma ReadsDigits(n: nat, rest: string)
    requires Ends(rest)
    ensures ReadDigits(Digits(n) + rest) == Ok(Read(n, rest))
  {
    DigitsAre(n);
    RunOfDigits(Digits(n), rest);
    var text := Digits(n) + rest;
    assert text[0] == Digits(n)[0];
    assert text[..|Digits(n)|] == Digits(n) && text[|Digits(n)|..] == rest;
  }

  lemma ReadsNegative(n: int, rest: string)
    requires n > 0 && Ends(rest)
    ensures ReadWord("-" + Digits(n) + rest) == Ok(Read(Num(-n), rest))
  {
    hide Digits, ReadDigits, ReadWord, Ends;
    var text := "-" + Digits(n) + rest;
    ReadsDigits(n, rest);
    DigitsAre(n);
    assert text[0] == '-' && text[1..] == Digits(n) + rest;
    assert text[1] == Digits(n)[0];
    NoWord(text);
  }

  lemma ReadsNatural(n: nat, rest: string)
    requires Ends(rest)
    ensures ReadWord(Digits(n) + rest) == Ok(Read(Num(n), rest))
  {
    hide Digits, ReadDigits, ReadWord, Ends;
    var text := Digits(n) + rest;
    ReadsDigits(n, rest);
    DigitsAre(n);
    assert text[0] == Digits(n)[0];
    NoWord(text);
  }

  lemma ReadsNumber(n: int, rest: string)
    requires Ends(rest)
    ensures ReadWord(WriteNumber(n) + rest) == Ok(Read(Num(n), rest))
    ensures WriteNumber(n) != [] && (WriteNumber(n)[0] == '-' || IsDigit(WriteNumber(n)[0]))
  {
    hide Digits, ReadWord, Ends;
    if n < 0 {
      ReadsNegative(-n, rest);
    } else {
      ReadsNatural(n, rest);
      DigitsAre(n);
    }
  }

  /** A number is none of the words. */
  lemma NoWord(text: string)
    requires text != [] && (IsDigit(text[0]) || (|text| > 1 && text[0] == '-' && IsDigit(text[1])))
    ensures ReadWord(text) == ReadNumber(text)
  {
    assert "null"[0] == 'n' && "true"[0] == 't' && "false"[0] == 'f';
    assert "NaN"[0] == 'N' && "Infinity"[0] == 'I' && "-Infinity"[1] == 'I';
  }

  lemma ReadsControl(code: nat, rest: string)
    requires code < 32
    ensures ReadUnicode(['0', '0', HexDigit(code / 16), HexDigit(code % 16)] + rest) == Ok(Read(code as char, rest))
  {
    var text := ['0', '0', HexDigit(code / 16), HexDigit(code % 16)] + rest;
    assert Hex4(text) == Some(code);
    assert text[4..] == rest;
  }

  lemma ReadsEscape(c: char, rest: string)
    ensures var text := Escape(c) + rest;
            if |Escape(c)| == 1 then Escape(c) == [c] && c != QUOTE && c != BACKSLASH && c as int >= 32
            else text[0] == BACKSLASH && ReadEscape(text[1..]) == Ok(Read(c, rest))
  {
    var text := Escape(c) + rest;
    if |Escape(c)| == 2 {
      assert text[1] == Escape(c)[1] && text[2..] == rest;
      assert text[1..][0] == text[1] && text[1..][1..] == rest;
    } else if |Escape(c)| > 2 {
      ReadsControl(c as int, rest);
      assert text[1] == 'u';
      assert text[1..][1..] == ['0', '0', HexDigit(c as int / 16), HexDigit(c as int % 16)] + rest;
    }
  }

  /** Quoting is undone. */
  lemma {:induction false} ReadsChars(text: string, rest: string)
    ensures ReadChars(EscapeAll(text) + [QUOTE] + rest) == Ok(Read(text, rest))
  {
    if text == [] {
      assert EscapeAll(text) + [QUOTE] + rest == [QUOTE] + rest;
      assert ([QUOTE] + rest)[1..] == rest;
    } else {
      var after := EscapeAll(text[1..]) + [QUOTE] + rest;
      ReadsChars(text[1..], rest);
      var whole := Escape(text[0]) + after;
      assert EscapeAll(text) + [QUOTE] + rest == whole;
      ReadsEscape(text[0], after);
      assert |Escape(text[0])| == 1 ==> whole[0] == text[0] && whole[1..] == after;
      assert text == [text[0]] + text[1..];
    }
  }

  /** A string reads back. */
  lemma ReadsString(text: string, rest: string)
    ensures var whole := WriteString(text) + rest;
            whole != [] && whole[0] == QUOTE && ReadChars(whole[1..]) == Ok(Read(text, rest))
  {
    hide ReadChars, EscapeAll;
    ReadsChars(text, rest);
    assert (WriteString(text) + rest)[1..] == EscapeAll(text) + [QUOTE] + rest;
  }

  lemma {:induction false} WriteStarts(v: Json)
    ensures Write(v) != [] && Starts(Write(v)[0])
  {
    if v.Num? {
      ReadsNumber(v.number, []);
    }
  }

  /** What is written reads back, and nothing after it is touched. */
  lemma {:induction false} ReadsWritten(v: Json, strict: bool, rest: string)
    requires AllDistinct(v) && Ends(rest)
    ensures ReadValue(Write(v) + rest, strict) == Ok(Read(v, rest))
    decreases v, 0
  {
    hide ReadItems, ReadMembers, ReadChars, ReadWord, WriteItems, WriteFields, WriteNumber, WriteString, Starts,
      SkipSpace, Ends;
    match v
    case Null => ReadsWord("null", Null, rest, strict);
    case Bool(flag) => ReadsWord(if flag then "true" else "false", v, rest, strict);
    case Num(n) =>
      ReadsNumber(n, rest);
      assert (WriteNumber(n) + rest)[0] == WriteNumber(n)[0];
    case Str(text) =>
      ReadsString(text, rest);
      var whole := WriteString(text) + rest;
      assert whole != [] && whole[0] == QUOTE;
      assert Write(v) + rest == whole;
    case Arr(items) =>
      if items == [] {
        ReadsEmpty('[', ']', rest);
      } else {
        ReadsItems(items, strict, rest);
        ItemsStart(items);
        Inside('[', WriteItems(items), ']', rest);
      }
    case Obj(fields) =>
      if fields == [] {
        ReadsEmpty('{', '}', rest);
      } else {
        ReadsMembers(fields, strict, rest);
        FieldsStart(fields);
        Inside('{', WriteFields(fields), '}', rest);
      }
  }

  lemma ReadsWord(word: string, v: Json, rest: string, strict: bool)
    requires (word == "null" && v == Null) || (word == "true" && v == Bool(true)) ||
             (word == "false" && v == Bool(false))
    ensures ReadValue(word + rest, strict) == Ok(Read(v, rest))
  {
    var text := word + rest;
    assert word <= text && text[|word|..] == rest && text[0] == word[0];
    assert "null"[0] == 'n' && "true"[0] == 't' && "false"[0] == 'f';
  }

  lemma ReadsEmpty(open: char, close: char, rest: string)
    requires !Space(close)
    ensures var text := [open, close] + rest;
            SkipSpace(text[1..]) == [close] + rest && ([close] + rest)[1..] == rest
  {
    assert ([open, close] + rest)[1..] == [close] + rest;
  }

  lemma Inside(open: char, body: string, close: char, rest: string)
    requires body != [] && Starts(body[0])
    ensures var text := [open] + body + [close] + rest;
            text[0] == open && SkipSpace(text[1..]) == body + [close] + rest
  {
    var text := [open] + body + [close] + rest;
    assert text[1..] == body + [close] + rest;
    assert text[1..][0] == body[0];
  }

  lemma ItemsStart(items: seq<Json>)
    requires items != []
    ensures WriteItems(items) != [] && Starts(WriteItems(items)[0])
  {
    WriteStarts(items[0]);
  }

  lemma FieldsStart(fields: seq<Field>)
    requires fields != []
    ensures WriteFields(fields) != [] && Starts(WriteFields(fields)[0])
  {
  }

  lemma ItemsEnd(text: string, first: Json, rest: string, strict: bool)
    requires ReadValue(text, strict) == Ok(Read(first, "]" + rest))
    ensures ReadItems(text, strict) == Ok(Read([first], rest))
  {
    hide ReadValue;
    assert ("]" + rest)[1..] == rest;
  }

  lemma ItemsGoOn(text: string, first: Json, after: string, more: seq<Json>, rest: string, strict: bool)
    requires ReadValue(text, strict) == Ok(Read(first, "," + after))
    requires after != [] && Starts(after[0]) && ReadItems(after, strict) == Ok(Read(more, rest))
    ensures ReadItems(text, strict) == Ok(Read([first] + more, rest))
  {
    hide ReadValue;
    assert ("," + after)[1..] == after;
    StartsSkip(after);
  }

  lemma {:induction false} ReadsItems(items: seq<Json>, strict: bool, rest: string)
    requires items != [] && forall i :: 0 <= i < |items| ==> AllDistinct(items[i])
    ensures ReadItems(WriteItems(items) + "]" + rest, strict) == Ok(Read(items, rest))
    decreases items, 1
  {
    hide ReadItems, ReadValue, Write, AllDistinct, Starts;
    if |items| == 1 {
      ReadsWritten(items[0], strict, "]" + rest);
      assert Write(items[0]) + "]" + rest == Write(items[0]) + ("]" + rest);
      ItemsEnd(Write(items[0]) + ("]" + rest), items[0], rest, strict);
      assert items == [items[0]];
    } else {
      var after := WriteItems(items[1..]) + "]" + rest;
      ReadsWritten(items[0], strict, "," + after);
      assert WriteItems(items) + "]" + rest == Write(items[0]) + ("," + after);
      ReadsItems(items[1..], strict, rest);
      ItemsStart(items[1..]);
      assert after[0] == WriteItems(items[1..])[0];
      ItemsGoOn(Write(items[0]) + ("," + after), items[0], after, items[1..], rest, strict);
      assert items == [items[0]] + items[1..];
    }
  }

  lemma {:induction false} ReadsField(f: Field, strict: bool, rest: string)
    requires AllDistinct(f.value) && Ends(rest)
    ensures ReadMember(WriteField(f) + rest, strict) == Ok(Read(f, rest))
    decreases f, 1
  {
    hide ReadValue, ReadChars, Write, WriteString, AllDistinct, SkipSpace, Ends, Starts;
    var after := ":" + (Write(f.value) + rest);
    assert WriteField(f) + rest == WriteString(f.key) + after;
    ReadsString(f.key, after);
    assert after[1..] == Write(f.value) + rest;
    NextValue(f.value, rest);
    StartsSkip(after);
    ReadsWritten(f.value, strict, rest);
  }

  lemma NextValue(v: Json, rest: string)
    ensures SkipSpace(Write(v) + rest) == Write(v) + rest
  {
    WriteStarts(v);
    assert (Write(v) + rest)[0] == Write(v)[0];
    StartsSkip(Write(v) + rest);
  }

  lemma MembersEnd(text: string, first: Field, rest: string, strict: bool)
    requires ReadMember(text, strict) == Ok(Read(first, "}" + rest))
    ensures ReadMembers(text, strict) == Ok(Read([first], rest))
  {
    hide ReadMember;
    assert ("}" + rest)[1..] == rest;
  }

  lemma MembersGoOn(text: string, first: Field, after: string, more: seq<Field>, rest: string, strict: bool)
    requires ReadMember(text, strict) == Ok(Read(first, "," + after))
    requires after != [] && Starts(after[0]) && ReadMembers(after, strict) == Ok(Read(more, rest))
    ensures ReadMembers(text, strict) == Ok(Read([first] + more, rest))
  {
    hide ReadMember;
    assert ("," + after)[1..] == after;
    StartsSkip(after);
  }

  lemma {:induction false} ReadsMembers(fields: seq<Field>, strict: bool, rest: string)
    requires fields != [] && forall i :: 0 <= i < |fields| ==> AllDistinct(fields[i].value)
    ensures ReadMembers(WriteFields(fields) + "}" + rest, strict) == Ok(Read(fields, rest))
    decreases fields, 1
  {
    hide ReadMembers, ReadMember, WriteField, AllDistinct, Starts;
    if |fields| == 1 {
      ReadsField(fields[0], strict, "}" + rest);
      assert WriteField(fields[0]) + "}" + rest == WriteField(fields[0]) + ("}" + rest);
      MembersEnd(WriteField(fields[0]) + ("}" + rest), fields[0], rest, strict);
      assert fields == [fields[0]];
    } else {
      var after := WriteFields(fields[1..]) + "}" + rest;
      ReadsField(fields[0], strict, "," + after);
      assert WriteFields(fields) + "}" + rest == WriteField(fields[0]) + ("," + after);
      ReadsMembers(fields[1..], strict, rest);
      FieldsStart(fields[1..]);
      assert after[0] == WriteFields(fields[1..])[0];
      MembersGoOn(WriteField(fields[0]) + ("," + after), fields[0], after, fields[1..], rest, strict);
      assert fields == [fields[0]] + fields[1..];
    }
  }

  // What the hook adds

  /** With the hook a reading is refused for a repeated key, or comes out as it does without. */
  ghost predicate Guarded<T(!new)>(plain: Reading<T>, strict: Reading<T>, distinct: bool) {
    if plain.Ok? then strict == if distinct then plain else Err(DuplicateKey)
    else strict == plain || strict == Err(DuplicateKey)
  }

  predicate ItemsDistinct(items: seq<Json>) {
    forall i :: 0 <= i < |items| ==> AllDistinct(items[i])
  }

  predicate ValuesDistinct(fields: seq<Field>) {
    forall i :: 0 <= i < |fields| ==> AllDistinct(fields[i].value)
  }

  lemma {:induction false} HookOnValue(text: string)
    ensures var plain := ReadValue(text, false);
            Guarded(plain, ReadValue(text, true), plain.Ok? && AllDistinct(plain.value.value))
    decreases |text|, 0
  {
    hide ReadItems, ReadMembers, ReadWord, ReadChars, SkipSpace;
    if text != [] && text[0] == '[' {
      HookOnItems(SkipSpace(text[1..]));
    } else if text != [] && text[0] == '{' {
      HookOnMembers(SkipSpace(text[1..]));
    } else if text != [] && text[0] != QUOTE {
      WordIsScalar(text);
    }
  }

  lemma WordIsScalar(text: string)
    ensures ReadWord(text).Ok? ==> AllDistinct(ReadWord(text).value.value)
  {
  }

  lemma ItemsDistinctMore(first: Json, more: seq<Json>)
    ensures ItemsDistinct([first] + more) <==> AllDistinct(first) && ItemsDistinct(more)
  {
    hide AllDistinct;
    if ItemsDistinct([first] + more) {
      assert ([first] + more)[0] == first;
      assert forall i :: 0 <= i < |more| ==> more[i] == ([first] + more)[i + 1];
    }
  }

  lemma ValuesDistinctMore(first: Field, more: seq<Field>)
    ensures ValuesDistinct([first] + more) <==> AllDistinct(first.value) && ValuesDistinct(more)
  {
    hide AllDistinct;
    if ValuesDistinct([first] + more) {
      assert ([first] + more)[0] == first;
      assert forall i :: 0 <= i < |more| ==> more[i] == ([first] + more)[i + 1];
    }
  }

  lemma {:induction false} HookOnItems(text: string)
    ensures var plain := ReadItems(text, false);
            Guarded(plain, ReadItems(text, true), plain.Ok? && ItemsDistinct(plain.value.value))
    decreases |text|, 1
  {
    hide ReadValue, SkipSpace, AllDistinct, ItemsDistinct;
    HookOnValue(text);
    var plain := ReadValue(text, false);
    if plain.Ok? {
      ItemsDistinctMore(plain.value.value, []);
      NoneDistinct();
      assert [plain.value.value] + [] == [plain.value.value];
      var next := SkipSpace(plain.value.rest);
      if next != [] && next[0] == ',' {
        HookOnItems(SkipSpace(next[1..]));
        var more := ReadItems(SkipSpace(next[1..]), false);
        if more.Ok? {
          ItemsDistinctMore(plain.value.value, more.value.value);
        }
      }
    }
  }

  lemma NoneDistinct()
    ensures ItemsDistinct([]) && ValuesDistinct([])
  {
  }

  lemma {:induction false} HookOnMember(text: string)
    ensures var plain := ReadMember(text, false);
            Guarded(plain, ReadMember(text, true), plain.Ok? && AllDistinct(plain.value.value.value))
    decreases |text|, 1
  {
    hide ReadValue, SkipSpace, AllDistinct, ReadChars;
    if text != [] && text[0] == QUOTE && ReadChars(text[1..]).Ok? {
      var colon := SkipSpace(ReadChars(text[1..]).value.rest);
      if colon != [] {
        HookOnValue(SkipSpace(colon[1..]));
      }
    }
  }

  lemma {:induction false} HookOnMembers(text: string)
    ensures var plain := ReadMembers(text, false);
            Guarded(plain, ReadMembers(text, true), plain.Ok? && ValuesDistinct(plain.value.value))
    decreases |text|, 2
  {
    hide ReadMember, SkipSpace, AllDistinct, ValuesDistinct;
    HookOnMember(text);
    var plain := ReadMember(text, false);
    if plain.Ok? {
      ValuesDistinctMore(plain.value.value, []);
      NoneDistinct();
      assert [plain.value.value] + [] == [plain.value.value];
      var next := SkipSpace(plain.value.rest);
      if next != [] && next[0] == ',' {
        HookOnMembers(SkipSpace(next[1..]));
        var more := ReadMembers(SkipSpace(next[1..]), false);
        if more.Ok? {
          ValuesDistinctMore(plain.value.value, more.value.value);
        }
      }
    }
  }

  /** A document is refused for a repeated key exactly when some object in it, at any depth, has
      one; otherwise the strict loader reads what the plain one reads. */
  lemma RepeatedKeysAreRejected(text: string)
    requires Loads(text, false).Ok?
    ensures Loads(text, true) ==
            if AllDistinct(Loads(text, false).value) then Loads(text, false) else Err(DuplicateKey)
  {
    hide ReadValue, SkipSpace, AllDistinct;
    HookOnValue(SkipSpace(text));
  }

  // The laws

  /** Loading the canonical text of an object returns it, its keys sorted at every depth. */
  lemma LoadUndoesCanonical(v: Json)
    requires AllDistinct(v) && v.Obj?
    ensures Load(Canonical(v)) == Ok(Norm(v))
    ensures Same(Norm(v), v)
  {
    NormIsDistinct(v);
    ReadsWritten(Norm(v), true, []);
    assert Write(Norm(v)) + [] == Write(Norm(v));
    WriteStarts(Norm(v));
    StartsSkip(Write(Norm(v)));
    assert Write(Norm(v))[0] == '{';
    NormTwice(v);
    NormSame(Norm(v), v);
  }

  function Normed(found: Option<Json>): Option<Json> {
    if found.None? then None else Some(Norm(found.value))
  }

  lemma {:induction false} GetNormed(fields: seq<Field>, key: string)
    ensures Get(NormFields(fields), key) == Normed(Get(fields, key))
  {
    if fields != [] {
      assert NormFields(fields)[1..] == NormFields(fields[1..]);
      GetNormed(fields[1..], key);
    }
  }

  /** Whatever is read from the loaded object is what the original holds under that key. */
  lemma LoadedReads(v: Json, key: string)
    requires AllDistinct(v) && v.Obj?
    ensures Load(Canonical(v)).Ok? && Load(Canonical(v)).value.Obj?
    ensures Get(Load(Canonical(v)).value.fields, key) == Normed(Get(v.fields, key))
  {
    LoadUndoesCanonical(v);
    NormFieldsSort(v.fields);
    GetSort(NormFields(v.fields), key);
    GetNormed(v.fields, key);
  }

  /** Two values have the same canonical text exactly when they are the same up to the order of keys. */
  lemma CanonicalIsInjective(v: Json, w: Json)
    requires AllDistinct(v) && AllDistinct(w)
    ensures Canonical(v) == Canonical(w) <==> Same(v, w)
  {
    if Canonical(v) == Canonical(w) {
      NormIsDistinct(v);
      NormIsDistinct(w);
      ReadsWritten(Norm(v), true, []);
      ReadsWritten(Norm(w), true, []);
      NormSame(v, w);
    }
    if Same(v, w) {
      SameNorm(v, w);
    }
  }

  lemma SortTwice(fields: seq<Field>)
    requires DistinctKeys(fields)
    ensures Sort(Sort(fields)) == Sort(fields)
  {
    SortSorts(fields);
    SortedIsDistinct(Sort(fields));
    SortSorts(Sort(fields));
    forall f
      ensures f in Sort(Sort(fields)) <==> f in Sort(fields)
    {
      MultisetMembers(Sort(Sort(fields)), Sort(fields), f);
    }
    SortedIsCanonical(Sort(Sort(fields)), Sort(fields));
  }

  lemma {:induction false} NormTwice(v: Json)
    requires AllDistinct(v)
    ensures Norm(Norm(v)) == Norm(v)
  {
    match v
    case Arr(items) =>
      NormItemsAt(items);
      NormItemsAt(NormItems(items));
      forall i | 0 <= i < |items|
        ensures NormItems(NormItems(items))[i] == NormItems(items)[i]
      {
        NormTwice(items[i]);
      }
      assert NormItems(NormItems(items)) == NormItems(items);
    case Obj(fields) =>
      NormFieldsAt(fields);
      NormFieldsSort(fields);
      var sorted := Sort(NormFields(fields));
      NormFieldsAt(sorted);
      forall k | 0 <= k < |sorted|
        ensures NormFields(sorted)[k] == sorted[k]
      {
        MultisetMembers(sorted, NormFields(fields), sorted[k]);
        var i :| 0 <= i < |fields| && NormFields(fields)[i] == sorted[k];
        NormTwice(fields[i].value);
      }
      assert NormFields(sorted) == sorted;
      SortTwice(NormFields(fields));
    case _ =>
  }
}

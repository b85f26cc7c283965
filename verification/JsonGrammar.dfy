/** The texts the strict loader takes, as trees of what is written where: the JSON of RFC 8259 with integers only. */
module JsonGrammar {
  import opened JsonValues
  import opened CanonicalJson
  import opened StrictLoader

  // Strings

  /** One character of a string as it is written: as itself, by a letter, or by one code or two. */
  datatype Unit =
    | Itself(c: char)
    | Letter(letter: char)
    | Code(digits: string, code: nat)
    | Pair(high: string, highCode: nat, low: string, lowCode: nat)

  predicate HexIs(c: char, n: nat) {
    n < 16 && (c == "0123456789abcdef"[n] || c == "0123456789ABCDEF"[n])
  }

  /** Four hexadecimal digits of either case. */
  predicate WritesCode(digits: string, code: nat) {
    && |digits| == 4 && code < 0x1_0000
    && HexIs(digits[0], code / 16 / 16 / 16) && HexIs(digits[1], code / 16 / 16 % 16)
    && HexIs(digits[2], code / 16 % 16) && HexIs(digits[3], code % 16)
  }

  predicate UnitOk(u: Unit) {
    match u
    case Itself(c) => 32 <= c as int && c != '"' && c != '\\'
    case Letter(letter) => letter in "\"\\/bfnrt"
    case Code(digits, code) => WritesCode(digits, code) && !(0xD800 <= code < 0xE000)
    case Pair(high, highCode, low, lowCode) =>
      && WritesCode(high, highCode) && 0xD800 <= highCode < 0xDC00
      && WritesCode(low, lowCode) && 0xDC00 <= lowCode < 0xE000
  }

  function UnitText(u: Unit): string {
    match u
    case Itself(c) => [c]
    case Letter(letter) => ['\\', letter]
    case Code(digits, _) => "\\u" + digits
    case Pair(high, _, low, _) => "\\u" + high + "\\u" + low
  }

  /** The character written. */
  function UnitChar(u: Unit): char
    requires UnitOk(u)
  {
    match u
    case Itself(c) => c
    case Letter(letter) =>
      if letter == 'b' then 8 as char
      else if letter == 'f' then 12 as char
      else if letter == 'n' then 10 as char
      else if letter == 'r' then 13 as char
      else if letter == 't' then 9 as char
      else letter
    case Code(_, code) => code as char
    case Pair(_, high, _, low) => (0x1_0000 + (high - 0xD800) * 0x400 + (low - 0xDC00)) as char
  }

  predicate UnitsOk(units: seq<Unit>) {
    forall i :: 0 <= i < |units| ==> UnitOk(units[i])
  }

  function UnitsText(units: seq<Unit>): string {
    if units == [] then "" else UnitText(units[0]) + UnitsText(units[1..])
  }

  function UnitsChars(units: seq<Unit>): string
    requires UnitsOk(units)
  {
    if units == [] then "" else [UnitChar(units[0])] + UnitsChars(units[1..])
  }

  // Trees

  datatype Tree =
    | Word(value: Json)
    | Number(negative: bool, digits: string, size: nat)
    | Quoted(units: seq<Unit>)
    | List(inside: string, items: seq<Item>)  // `inside` is written when there are no items
    | Dict(inside: string, members: seq<Member>)

  /** A value with the blanks around it. */
  datatype Item = Item(before: string, tree: Tree, after: string)

  datatype Member = Member(before: string, key: seq<Unit>, afterKey: string, item: Item)

  predicate Blanks(text: string) {
    forall i :: 0 <= i < |text| ==> text[i] in " \t\n\r"
  }

  /** Digits without a needless zero in front, and their number. */
  predicate Decimal(digits: string, n: nat)
    decreases |digits|
  {
    && digits != [] && digits[|digits| - 1] == "0123456789"[n % 10]
    && (if |digits| == 1 then n < 10 else n >= 10 && Decimal(digits[..|digits| - 1], n / 10))
  }

  predicate WordOk(value: Json) {
    value == Null || value == Bool(true) || value == Bool(false)
  }

  function WordText(value: Json): string {
    if value == Bool(true) then "true" else if value == Bool(false) then "false" else "null"
  }

  /** A tree with everything in its place; under `strict` no object has a key twice. */
  predicate TreeOk(t: Tree, strict: bool)
    decreases t
  {
    match t
    case Word(value) => WordOk(value)
    case Number(_, digits, size) => Decimal(digits, size)
    case Quoted(units) => UnitsOk(units)
    case List(inside, items) =>
      Blanks(inside) && forall i :: 0 <= i < |items| ==> ItemOk(items[i], strict)
    case Dict(inside, members) =>
      && Blanks(inside)
      && (forall i :: 0 <= i < |members| ==> MemberOk(members[i], strict))
      && (strict ==> forall i, j :: 0 <= i < j < |members| ==> KeyOf(members[i]) != KeyOf(members[j]))
  }

  predicate ItemOk(item: Item, strict: bool)
    decreases item
  {
    Blanks(item.before) && Blanks(item.after) && TreeOk(item.tree, strict)
  }

  predicate MemberOk(m: Member, strict: bool)
    decreases m
  {
    Blanks(m.before) && UnitsOk(m.key) && Blanks(m.afterKey) && ItemOk(m.item, strict)
  }

  function KeyOf(m: Member): string {
    if UnitsOk(m.key) then UnitsChars(m.key) else ""
  }

  /** The text of a tree. */
  function Print(t: Tree): string
    decreases t
  {
    match t
    case Word(value) => WordText(value)
    case Number(negative, digits, _) => (if negative then "-" else "") + digits
    case Quoted(units) => "\"" + UnitsText(units) + "\""
    case List(inside, items) => "[" + (if items == [] then inside else PrintItems(items)) + "]"
    case Dict(inside, members) => "{" + (if members == [] then inside else PrintMembers(members)) + "}"
  }

  function PrintItem(item: Item): string
    decreases item
  {
    item.before + Print(item.tree) + item.after
  }

  function PrintItems(items: seq<Item>): string
    decreases items
  {
    if items == [] then ""
    else if |items| == 1 then PrintItem(items[0])
    else PrintItem(items[0]) + "," + PrintItems(items[1..])
  }

  function PrintMember(m: Member): string
    decreases m
  {
    m.before + "\"" + UnitsText(m.key) + "\"" + m.afterKey + ":" + PrintItem(m.item)
  }

  function PrintMembers(members: seq<Member>): string
    decreases members
  {
    if members == [] then ""
    else if |members| == 1 then PrintMember(members[0])
    else PrintMember(members[0]) + "," + PrintMembers(members[1..])
  }

  /** The value of a tree. */
  function ValueOf(t: Tree): Json
    decreases t
  {
    match t
    case Word(value) => value
    case Number(negative, _, size) =>
      var number: int := size;
      if negative then Num(-number) else Num(number)
    case Quoted(units) => Str(if UnitsOk(units) then UnitsChars(units) else "")
    case List(_, items) => Arr(Values(items))
    case Dict(_, members) => Obj(Fields(members))
  }

  function Values(items: seq<Item>): seq<Json>
    decreases items
  {
    if items == [] then [] else [ValueOf(items[0].tree)] + Values(items[1..])
  }

  function Fields(members: seq<Member>): seq<Field>
    decreases members
  {
    if members == [] then [] else [Field(KeyOf(members[0]), ValueOf(members[0].item.tree))] + Fields(members[1..])
  }

  // Blanks

  lemma BlankIsSpace(c: char)
    ensures c in " \t\n\r" <==> Space(c)
  {
  }

  lemma {:induction false} SkipsBlanks(blanks: string, rest: string)
    requires Blanks(blanks) && (rest == [] || !Space(rest[0]))
    ensures SkipSpace(blanks + rest) == rest
    decreases |blanks|
  {
    if blanks == [] {
      assert blanks + rest == rest;
    } else {
      assert (blanks + rest)[1..] == blanks[1..] + rest;
      BlankIsSpace(blanks[0]);
      SkipsBlanks(blanks[1..], rest);
    }
  }

  lemma {:induction false} Skipped(text: string) returns (blanks: string)
    ensures Blanks(blanks) && text == blanks + SkipSpace(text)
    ensures SkipSpace(text) == [] || !Space(SkipSpace(text)[0])
    decreases |text|
  {
    blanks := "";
    if text != [] && Space(text[0]) {
      var more := Skipped(text[1..]);
      BlankIsSpace(text[0]);
      blanks := [text[0]] + more;
      assert text == [text[0]] + text[1..];
    }
  }

  // Hexadecimal digits

  lemma HexExactly(c: char, n: nat)
    ensures HexIs(c, n) <==> HexValue(c) == Some(n)
  {
  }

  lemma CodeExactly(text: string, code: nat)
    ensures Hex4(text) == Some(code) <==> |text| >= 4 && WritesCode(text[..4], code)
  {
    hide Hex4, WritesCode;
    if |text| >= 4 && WritesCode(text[..4], code) {
      WrittenCodeReads(text, code);
    }
    if Hex4(text) == Some(code) {
      ReadCodeIsWritten(text, code);
    }
  }

  lemma WrittenCodeReads(text: string, code: nat)
    requires |text| >= 4 && WritesCode(text[..4], code)
    ensures Hex4(text) == Some(code)
  {
    hide HexIs, HexValue;
    HexExactly(text[0], code / 16 / 16 / 16);
    HexExactly(text[1], code / 16 / 16 % 16);
    HexExactly(text[2], code / 16 % 16);
    HexExactly(text[3], code % 16);
    Recombines(code);
  }

  lemma Recombines(code: nat)
    ensures ((code / 16 / 16 / 16 * 16 + code / 16 / 16 % 16) * 16 + code / 16 % 16) * 16 + code % 16 == code
  {
    Halves(code / 16 / 16);
    Halves(code / 16);
    Halves(code);
  }

  lemma Halves(n: nat)
    ensures n / 16 * 16 + n % 16 == n
  {
  }

  lemma ReadCodeIsWritten(text: string, code: nat)
    requires Hex4(text) == Some(code)
    ensures |text| >= 4 && WritesCode(text[..4], code)
  {
    hide HexIs, HexValue;
    var a, b := HexValue(text[0]).value, HexValue(text[1]).value;
    var c, d := HexValue(text[2]).value, HexValue(text[3]).value;
    HexExactly(text[0], a);
    HexExactly(text[1], b);
    HexExactly(text[2], c);
    HexExactly(text[3], d);
    HexIsSmall(text[0]);
    HexIsSmall(text[1]);
    HexIsSmall(text[2]);
    HexIsSmall(text[3]);
    Places(a, b, c, d);
  }

  lemma HexIsSmall(c: char)
    ensures HexValue(c).Some? ==> HexValue(c).value < 16
  {
  }

  lemma Places(a: nat, b: nat, c: nat, d: nat)
    requires a < 16 && b < 16 && c < 16 && d < 16
    ensures var n := ((a * 16 + b) * 16 + c) * 16 + d;
      n / 16 / 16 / 16 == a && n / 16 / 16 % 16 == b && n / 16 % 16 == c && n % 16 == d
  {
    Place((a * 16 + b) * 16 + c, d);
    Place(a * 16 + b, c);
    Place(a, b);
  }

  lemma Place(q: nat, d: nat)
    requires d < 16
    ensures (q * 16 + d) / 16 == q && (q * 16 + d) % 16 == d
  {
  }

  // Reading strings

  lemma LetterReads(letter: char, rest: string)
    requires letter in "\"\\/bfnrt"
    ensures ReadEscape([letter] + rest) == Ok(Read(UnitChar(Letter(letter)), rest))
  {
    hide ReadUnicode;
    assert ([letter] + rest)[1..] == rest;
  }

  lemma UnicodeReads(u: Unit, rest: string)
    requires UnitOk(u) && (u.Code? || u.Pair?)
    ensures ReadUnicode(UnitText(u)[2..] + rest) == Ok(Read(UnitChar(u), rest))
  {
    hide WritesCode, Hex4;
    if u.Code? {
      assert UnitText(u)[2..] == u.digits;
      CodeReads(u.digits, u.code, rest);
    } else {
      var after := "\\u" + (u.low + rest);
      assert UnitText(u)[2..] + rest == u.high + after;
      CodeReads(u.high, u.highCode, after);
      CodeReads(u.low, u.lowCode, rest);
      assert (u.high + after)[4] == '\\' && (u.high + after)[5] == 'u' && (u.high + after)[6..] == u.low + rest;
      assert (u.high + after)[10..] == (u.low + rest)[4..];
    }
  }

  lemma UnitReads(u: Unit, rest: string)
    requires UnitOk(u) && !u.Itself?
    ensures var text := UnitText(u) + rest;
      text[0] == '\\' && ReadEscape(text[1..]) == Ok(Read(UnitChar(u), rest))
  {
    hide WritesCode, ReadUnicode, UnitChar;
    var text := UnitText(u) + rest;
    if u.Letter? {
      assert text[1..] == [u.letter] + rest;
      LetterReads(u.letter, rest);
    } else {
      UnicodeReads(u, rest);
      assert text[1..][0] == 'u' && text[1..][1..] == UnitText(u)[2..] + rest;
    }
  }

  lemma CodeReads(digits: string, code: nat, rest: string)
    requires WritesCode(digits, code)
    ensures |digits| == 4 && Hex4(digits + rest) == Some(code) && (digits + rest)[4..] == rest
  {
    hide HexIs, Hex4;
    assert (digits + rest)[..4] == digits;
    CodeExactly(digits + rest, code);
  }

  lemma {:induction false} UnitsRead(units: seq<Unit>, rest: string)
    requires UnitsOk(units)
    ensures ReadChars(UnitsText(units) + "\"" + rest) == Ok(Read(UnitsChars(units), rest))
    decreases |units|
  {
    hide ReadEscape, UnitOk, UnitChar;
    if units == [] {
      assert UnitsText(units) + "\"" + rest == "\"" + rest && ("\"" + rest)[1..] == rest;
    } else {
      var u, after := units[0], UnitsText(units[1..]) + "\"" + rest;
      UnitsRead(units[1..], rest);
      assert UnitsText(units) + "\"" + rest == UnitText(u) + after;
      if u.Itself? {
        ItselfReads(u);
        assert (UnitText(u) + after)[1..] == after;
      } else {
        UnitReads(u, after);
      }
    }
  }

  lemma ItselfReads(u: Unit)
    requires UnitOk(u) && u.Itself?
    ensures 32 <= u.c as int && u.c != QUOTE && u.c != BACKSLASH && UnitChar(u) == u.c
  {
  }

  /** What a string reads as was written in units. */
  lemma {:induction false} CharsAreWritten(text: string) returns (units: seq<Unit>)
    requires ReadChars(text).Ok?
    ensures UnitsOk(units) && ReadChars(text).value.value == UnitsChars(units)
    ensures text == UnitsText(units) + "\"" + ReadChars(text).value.rest
    decreases |text|
  {
    hide UnitOk, UnitChar, UnitText, ReadEscape;
    if text[0] == QUOTE {
      units := [];
      assert text == "\"" + text[1..];
    } else {
      var u, rest := FirstIsWritten(text);
      hide ReadChars;
      var more := CharsAreWritten(rest);
      units := [u] + more;
      assert units[1..] == more;
      FourTexts(UnitText(u), UnitsText(more), "\"", ReadChars(text).value.rest);
      TwoTexts(UnitsText(more), "\"", ReadChars(text).value.rest);
    }
  }

  /** The first character of a string, and the rest of it. */
  lemma FirstIsWritten(text: string) returns (u: Unit, rest: string)
    requires ReadChars(text).Ok? && text[0] != QUOTE
    ensures UnitOk(u) && text == UnitText(u) + rest && |rest| < |text| && ReadChars(rest).Ok?
    ensures ReadChars(text).value == Read([UnitChar(u)] + ReadChars(rest).value.value, ReadChars(rest).value.rest)
  {
    hide UnitOk, UnitChar, ReadEscape;
    if text[0] == BACKSLASH {
      u := EscapeIsWritten(text[1..]);
      rest := ReadEscape(text[1..]).value.rest;
      assert text == [text[0]] + text[1..];
    } else {
      u, rest := Itself(text[0]), text[1..];
      ItselfIsWritten(text[0]);
      assert text == [text[0]] + rest;
    }
  }

  lemma ItselfIsWritten(c: char)
    requires c as int >= 32 && c != QUOTE && c != BACKSLASH
    ensures UnitOk(Itself(c)) && UnitChar(Itself(c)) == c
  {
  }

  lemma EscapeIsWritten(text: string) returns (u: Unit)
    requires ReadEscape(text).Ok?
    ensures UnitOk(u) && UnitChar(u) == ReadEscape(text).value.value
    ensures "\\" + text == UnitText(u) + ReadEscape(text).value.rest
  {
    hide WritesCode, Hex4, ReadUnicode;
    if text[0] == 'u' {
      u := UnicodeIsWritten(text[1..]);
      assert "\\" + text == "\\u" + text[1..];
    } else {
      u := Letter(text[0]);
      assert text == [text[0]] + text[1..];
    }
  }

  lemma UnicodeIsWritten(text: string) returns (u: Unit)
    requires ReadUnicode(text).Ok?
    ensures UnitOk(u) && UnitChar(u) == ReadUnicode(text).value.value
    ensures "\\u" + text == UnitText(u) + ReadUnicode(text).value.rest
  {
    hide WritesCode, Hex4;
    var code := Hex4(text).value;
    CodeExactly(text, code);
    if 0xD800 <= code < 0xDC00 {
      var low := Hex4(text[6..]).value;
      CodeExactly(text[6..], low);
      u := Pair(text[..4], code, text[6..][..4], low);
      assert text == text[..4] + "\\u" + text[6..][..4] + text[10..];
    } else {
      u := Code(text[..4], code);
      assert text == text[..4] + text[4..];
    }
  }

  // Reading numbers

  lemma {:induction false} DecimalDigits(digits: string, n: nat)
    requires Decimal(digits, n)
    ensures digits != [] && forall i :: 0 <= i < |digits| ==> IsDigit(digits[i])
    ensures DigitsValue(digits) == n && (digits[0] == '0' ==> |digits| == 1)
    decreases |digits|
  {
    var fewer := digits[..|digits| - 1];
    DigitAt(n % 10);
    if |digits| > 1 {
      DecimalDigits(fewer, n / 10);
      assert fewer[0] == digits[0];
      if |fewer| == 1 {
        OneDigit(fewer);
      }
      forall i | 0 <= i < |digits| ensures IsDigit(digits[i]) {
        assert i < |fewer| ==> digits[i] == fewer[i];
      }
    } else {
      OneDigit(digits);
    }
  }

  lemma OneDigit(digits: string)
    requires |digits| == 1 && IsDigit(digits[0])
    ensures DigitsValue(digits) == digits[0] as int - '0' as int
  {
    assert digits[..0] == [];
  }

  lemma DigitAt(d: nat)
    requires d < 10
    ensures IsDigit("0123456789"[d]) && "0123456789"[d] as int == '0' as int + d
  {
  }

  lemma {:induction false} DigitsAreDecimal(digits: string)
    requires digits != [] && (forall i :: 0 <= i < |digits| ==> IsDigit(digits[i]))
    requires digits[0] == '0' ==> |digits| == 1
    ensures Decimal(digits, DigitsValue(digits))
    ensures digits[0] != '0' ==> DigitsValue(digits) > 0
    decreases |digits|
  {
    hide Decimal, DigitsValue, IsDigit;
    var fewer, last := digits[..|digits| - 1], digits[|digits| - 1];
    if |digits| > 1 {
      assert fewer[0] == digits[0];
      DigitsAreDecimal(fewer);
    }
    DecimalGrows(digits);
  }

  lemma DecimalGrows(digits: string)
    requires digits != [] && forall i :: 0 <= i < |digits| ==> IsDigit(digits[i])
    requires var fewer := digits[..|digits| - 1];
      fewer != [] ==> DigitsValue(fewer) > 0 && Decimal(fewer, DigitsValue(fewer))
    ensures Decimal(digits, DigitsValue(digits)) && (digits[0] != '0' ==> DigitsValue(digits) > 0)
  {
    var fewer, last := digits[..|digits| - 1], digits[|digits| - 1];
    LastDigit(last);
    if fewer == [] {
      OneDigit(digits);
    } else {
      var n := DigitsValue(fewer);
      hide Decimal;
      OneMoreDigit(n, last);
      DecimalStep(digits, n, last);
    }
  }

  lemma DecimalStep(digits: string, n: nat, last: char)
    requires |digits| > 1 && digits[|digits| - 1] == last && IsDigit(last) && n > 0
    requires Decimal(digits[..|digits| - 1], n)
    ensures 10 * n + (last as int - '0' as int) >= 0 && Decimal(digits, 10 * n + (last as int - '0' as int))
  {
    OneMoreDigit(n, last);
    LastDigit(last);
  }

  lemma LastDigit(c: char)
    requires IsDigit(c)
    ensures var d := c as int - '0' as int; 0 <= d < 10 && "0123456789"[d] == c && (c != '0' ==> d > 0)
  {
    DigitAt(c as int - '0' as int);
  }

  lemma OneMoreDigit(n: nat, c: char)
    requires IsDigit(c)
    ensures var d := c as int - '0' as int;
      (10 * n + d) / 10 == n && (10 * n + d) % 10 == d && (n > 0 ==> 10 * n + d >= 10)
  {
  }

  /** What may stand after a value: nothing, a blank, or the punctuation between values. */
  predicate MayFollow(rest: string) {
    rest == [] || rest[0] in " \t\n\r,]}"
  }

  lemma NoNumberGoesOn(rest: string)
    requires MayFollow(rest)
    ensures !GoesOnAsFloat(rest) && (rest == [] || !IsDigit(rest[0]))
  {
  }

  lemma DigitsRead(digits: string, n: nat, rest: string)
    requires Decimal(digits, n) && MayFollow(rest)
    ensures ReadDigits(digits + rest) == Ok(Read(n, rest))
  {
    hide Decimal, MayFollow, GoesOnAsFloat, IsDigit;
    DecimalDigits(digits, n);
    NoNumberGoesOn(rest);
    RunOfDigits(digits, rest);
    assert (digits + rest)[0] == digits[0];
    assert (digits + rest)[..|digits|] == digits && (digits + rest)[|digits|..] == rest;
  }

  lemma NumberReads(negative: bool, digits: string, n: nat, rest: string)
    requires Decimal(digits, n) && MayFollow(rest)
    ensures ReadWord(Print(Number(negative, digits, n)) + rest) == Ok(Read(ValueOf(Number(negative, digits, n)), rest))
    ensures Print(Number(negative, digits, n)) != []
    ensures Print(Number(negative, digits, n))[0] == '-' || IsDigit(Print(Number(negative, digits, n))[0])
  {
    hide Decimal, MayFollow, ReadDigits, ReadWord;
    DecimalDigits(digits, n);
    DigitsRead(digits, n, rest);
    var text := Print(Number(negative, digits, n)) + rest;
    if negative {
      assert text[1..] == digits + rest && text[1] == digits[0];
    } else {
      assert text == digits + rest && text[0] == digits[0];
    }
    NoWord(text);
    NotMinus(text[0]);
  }

  lemma NotMinus(c: char)
    ensures IsDigit(c) ==> c != '-'
  {
  }

  lemma DigitsAreWritten(text: string)
    requires ReadDigits(text).Ok?
    ensures var n := |text| - |ReadDigits(text).value.rest|;
      && 0 <= n <= |text| && text == text[..n] + ReadDigits(text).value.rest
      && ReadDigits(text).value.value >= 0 && Decimal(text[..n], ReadDigits(text).value.value)
  {
    hide Decimal, GoesOnAsFloat;
    RunIsDigits(text);
    var n := if text[0] == '0' then 1 else DigitRun(text);
    assert text == text[..n] + text[n..];
    forall i | 0 <= i < n ensures IsDigit(text[..n][i]) {
      assert text[..n][i] == text[i];
    }
    assert text[..n][0] == text[0];
    DigitsAreDecimal(text[..n]);
  }

  lemma NumberIsMade(negative: bool, digits: string, n: nat, number: int)
    requires Decimal(digits, n) && number == n
    ensures var t := Number(negative, digits, n);
      && TreeOk(t, true) && Print(t) == (if negative then "-" else "") + digits
      && ValueOf(t) == Num(if negative then -number else number)
  {
    hide Decimal;
  }

  /** A number is a sign, if any, and its digits. */
  lemma NumberParts(text: string)
    requires ReadNumber(text).Ok?
    ensures var negative := text != [] && text[0] == '-'; var digits := if negative then text[1..] else text;
      && text == (if negative then "-" else "") + digits && ReadDigits(digits).Ok?
      && ReadNumber(text).value.rest == ReadDigits(digits).value.rest
      && ReadNumber(text).value.value == Num(if negative then -ReadDigits(digits).value.value
                                             else ReadDigits(digits).value.value)
  {
    hide ReadDigits;
  }

  lemma NumberIsWritten(text: string) returns (t: Tree)
    requires ReadNumber(text).Ok?
    ensures t.Number? && TreeOk(t, true) && ValueOf(t) == ReadNumber(text).value.value
    ensures text == Print(t) + ReadNumber(text).value.rest
  {
    hide Decimal, ReadDigits, ReadNumber, TreeOk, Print, ValueOf;
    NumberParts(text);
    var negative := text != [] && text[0] == '-';
    var digits := if negative then text[1..] else text;
    DigitsAreWritten(digits);
    var read := ReadDigits(digits).value;
    var n := |digits| - |read.rest|;
    t := Number(negative, digits[..n], read.value);
    NumberIsMade(negative, digits[..n], read.value, read.value);
    TwoTexts(if negative then "-" else "", digits[..n], read.rest);
  }

  lemma TwoTexts(a: string, b: string, c: string)
    ensures a + (b + c) == a + b + c
  {
  }

  lemma WordReads(value: Json, rest: string, strict: bool)
    requires WordOk(value)
    ensures ReadValue(WordText(value) + rest, strict) == Ok(Read(value, rest))
  {
    var text := WordText(value) + rest;
    assert text[..|WordText(value)|] == WordText(value);
    assert text[0] == WordText(value)[0];
    assert "null"[0] == 'n' && "true"[0] == 't' && "false"[0] == 'f';
  }

  lemma WordIsWritten(text: string) returns (t: Tree)
    requires ReadWord(text).Ok?
    ensures (t.Word? || t.Number?) && TreeOk(t, true) && ValueOf(t) == ReadWord(text).value.value
    ensures text == Print(t) + ReadWord(text).value.rest
  {
    hide ReadNumber, Decimal;
    if "null" <= text {
      t := Word(Null);
      assert text == text[..4] + text[4..];
    } else if "true" <= text {
      t := Word(Bool(true));
      assert text == text[..4] + text[4..];
    } else if "false" <= text {
      t := Word(Bool(false));
      assert text == text[..5] + text[5..];
    } else {
      t := NumberIsWritten(text);
    }
  }

  // Reading values

  /** No value begins with a blank or a closing bracket. */
  predicate Begins(c: char) {
    !Space(c) && c != ']' && c != '}'
  }

  lemma PrintBegins(t: Tree, strict: bool)
    requires TreeOk(t, strict)
    ensures Print(t) != [] && Begins(Print(t)[0])
  {
    hide Decimal, DigitsValue;
    if t.Number? {
      DecimalDigits(t.digits, t.size);
    } else if t.Word? {
      assert "null"[0] == 'n' && "true"[0] == 't' && "false"[0] == 'f';
    }
  }

  lemma FollowsAfterBlanks(blanks: string, rest: string)
    requires Blanks(blanks) && MayFollow(rest)
    ensures MayFollow(blanks + rest)
  {
    if blanks != [] {
      assert (blanks + rest)[0] == blanks[0];
    } else {
      assert blanks + rest == rest;
    }
  }

  lemma PunctuationFollows(c: char, rest: string)
    requires c == ',' || c == ']' || c == '}'
    ensures MayFollow([c] + rest) && !Space(c) && ([c] + rest)[1..] == rest
  {
  }

  /** Reading a printed tree gives its value, and leaves alone what follows. */
  lemma {:induction false} TreeReads(t: Tree, strict: bool, rest: string)
    requires TreeOk(t, strict) && MayFollow(rest)
    ensures ReadValue(Print(t) + rest, strict) == Ok(Read(ValueOf(t), rest))
    decreases t, 0
  {
    hide MayFollow, Decimal, ReadWord, ReadChars, ReadItems, ReadMembers, SkipSpace, UnitsText, UnitsChars;
    var text := Print(t) + rest;
    match t
    case Word(value) => WordReads(value, rest, strict);
    case Number(negative, digits, size) =>
      NumberReads(negative, digits, size, rest);
      assert text[0] == Print(t)[0];
      NumberIsNoOther(text[0]);
    case Quoted(units) =>
      UnitsRead(units, rest);
      assert text[0] == QUOTE && text[1..] == UnitsText(units) + "\"" + rest;
    case List(_, _) => ListReads(t, strict, rest);
    case Dict(_, _) => DictReads(t, strict, rest);
  }

  lemma NumberIsNoOther(c: char)
    requires c == '-' || IsDigit(c)
    ensures c != QUOTE && c != '[' && c != '{'
  {
  }

  lemma {:induction false} ListReads(t: Tree, strict: bool, rest: string)
    requires t.List? && TreeOk(t, strict) && MayFollow(rest)
    ensures ReadValue(Print(t) + rest, strict) == Ok(Read(ValueOf(t), rest))
    decreases t, -1
  {
    hide MayFollow, ReadItems, ReadMembers, SkipSpace, ReadWord, ReadChars, Blanks, PrintItems, ItemOk;
    var text := Print(t) + rest;
    var tail := "]" + rest;
    PunctuationFollows(']', rest);
    if t.items == [] {
      assert text[1..] == t.inside + tail;
      SkipsBlanks(t.inside, tail);
    } else {
      assert text[1..] == PrintItems(t.items) + tail;
      ItemsRead(t.items, strict, rest);
    }
  }

  lemma FourTexts(a: string, b: string, c: string, d: string)
    ensures a + b + c + d == a + (b + (c + d))
  {
  }

  lemma ThreeTexts(a: string, b: string, c: string)
    ensures a + "," + b + c == a + ("," + (b + c))
  {
  }

  lemma ItemsText(items: seq<Item>, end: string)
    requires items != []
    ensures var tail := if |items| == 1 then end else "," + (PrintItems(items[1..]) + end);
      PrintItems(items) + end == items[0].before + (Print(items[0].tree) + (items[0].after + tail))
  {
    hide Print;
    var tail := if |items| == 1 then end else "," + (PrintItems(items[1..]) + end);
    FourTexts(items[0].before, Print(items[0].tree), items[0].after, tail);
    if |items| > 1 {
      ThreeTexts(PrintItem(items[0]), PrintItems(items[1..]), end);
    }
  }

  lemma ItemsStep(inside: string, strict: bool, first: Json, after: string, more: seq<Json>, rest: string)
    requires ReadValue(inside, strict) == Ok(Read(first, after)) && SkipSpace(after) != []
    ensures SkipSpace(after)[0] == ']' ==>
              ReadItems(inside, strict) == Ok(Read([first], SkipSpace(after)[1..]))
    ensures SkipSpace(after)[0] == ',' &&
            ReadItems(SkipSpace(SkipSpace(after)[1..]), strict) == Ok(Read(more, rest)) ==>
              ReadItems(inside, strict) == Ok(Read([first] + more, rest))
  {
    hide ReadValue, SkipSpace;
  }

  /** The items up to the closing bracket. */
  lemma {:induction false} ItemsRead(items: seq<Item>, strict: bool, rest: string)
    requires items != [] && forall i :: 0 <= i < |items| ==> ItemOk(items[i], strict)
    ensures var inside := SkipSpace(PrintItems(items) + ("]" + rest));
      && inside != [] && inside[0] != ']' && ReadItems(inside, strict) == Ok(Read(Values(items), rest))
    decreases items
  {
    hide MayFollow, ReadValue, Print, PrintItems, ValueOf, SkipSpace, ItemOk, Begins, ReadItems;
    var item, end := items[0], "]" + rest;
    var tail := if |items| == 1 then end else "," + (PrintItems(items[1..]) + end);
    PunctuationFollows(if |items| == 1 then ']' else ',', tail[1..]);
    assert tail == [tail[0]] + tail[1..];
    ItemsText(items, end);
    ItemSkips(item, strict, tail);
    ItemReads(item, strict, tail);
    var inside := Print(item.tree) + (item.after + tail);
    if |items| > 1 {
      ItemsRead(items[1..], strict, rest);
      assert tail[1..] == PrintItems(items[1..]) + end;
      ItemsStep(inside, strict, ValueOf(item.tree), item.after + tail, Values(items[1..]), rest);
    } else {
      assert items[1..] == [] && Values(items) == [ValueOf(item.tree)] && tail[1..] == rest;
      ItemsStep(inside, strict, ValueOf(item.tree), item.after + tail, [], rest);
    }
  }

  lemma {:induction false} ItemReads(item: Item, strict: bool, tail: string)
    requires ItemOk(item, strict) && MayFollow(item.after + tail)
    ensures ReadValue(Print(item.tree) + (item.after + tail), strict) == Ok(Read(ValueOf(item.tree), item.after + tail))
    decreases item
  {
    hide ReadValue, Print, ValueOf, TreeOk;
    TreeReads(item.tree, strict, item.after + tail);
  }

  /** Blanks around a value are skipped. */
  lemma ItemSkips(item: Item, strict: bool, tail: string)
    requires ItemOk(item, strict) && tail != [] && !Space(tail[0]) && MayFollow(tail)
    ensures var inside := Print(item.tree) + (item.after + tail);
      && SkipSpace(item.before + inside) == inside && inside != [] && inside[0] != ']' && inside[0] != '}'
    ensures MayFollow(item.after + tail) && SkipSpace(item.after + tail) == tail
  {
    hide Print, SkipSpace, MayFollow, Blanks;
    PrintBegins(item.tree, strict);
    var inside := Print(item.tree) + (item.after + tail);
    assert inside[0] == Print(item.tree)[0];
    SkipsBlanks(item.before, inside);
    FollowsAfterBlanks(item.after, tail);
    SkipsBlanks(item.after, tail);
  }

  lemma {:induction false} DictReads(t: Tree, strict: bool, rest: string)
    requires t.Dict? && TreeOk(t, strict) && MayFollow(rest)
    ensures ReadValue(Print(t) + rest, strict) == Ok(Read(ValueOf(t), rest))
    decreases t, -1
  {
    hide MayFollow, ReadItems, ReadMembers, SkipSpace, ReadWord, ReadChars, Blanks, KeyOf, PrintMembers, MemberOk;
    var text := Print(t) + rest;
    var tail := "}" + rest;
    PunctuationFollows('}', rest);
    if t.members == [] {
      assert text[1..] == t.inside + tail;
      SkipsBlanks(t.inside, tail);
    } else {
      assert text[1..] == PrintMembers(t.members) + tail;
      MembersRead(t.members, strict, rest);
      KeysAreFields(t.members);
    }
  }

  lemma {:induction false} KeysAreFields(members: seq<Member>)
    ensures |Fields(members)| == |members|
    ensures forall i :: 0 <= i < |members| ==> Fields(members)[i].key == KeyOf(members[i])
    decreases |members|
  {
    hide KeyOf, ValueOf;
    if members != [] {
      KeysAreFields(members[1..]);
      assert forall i :: 1 <= i < |members| ==> members[i] == members[1..][i - 1];
    }
  }

  lemma MembersText(members: seq<Member>, end: string)
    requires members != []
    ensures var tail := if |members| == 1 then end else "," + (PrintMembers(members[1..]) + end);
      PrintMembers(members) + end == PrintMember(members[0]) + tail
  {
    hide PrintMember;
  }

  lemma MembersStep(inside: string, strict: bool, first: Field, after: string, more: seq<Field>, rest: string)
    requires ReadMember(inside, strict) == Ok(Read(first, after)) && SkipSpace(after) != []
    ensures SkipSpace(after)[0] == '}' ==>
              ReadMembers(inside, strict) == Ok(Read([first], SkipSpace(after)[1..]))
    ensures SkipSpace(after)[0] == ',' &&
            ReadMembers(SkipSpace(SkipSpace(after)[1..]), strict) == Ok(Read(more, rest)) ==>
              ReadMembers(inside, strict) == Ok(Read([first] + more, rest))
  {
    hide ReadMember, SkipSpace;
  }

  lemma {:induction false} MembersRead(members: seq<Member>, strict: bool, rest: string)
    requires members != [] && forall i :: 0 <= i < |members| ==> MemberOk(members[i], strict)
    ensures var inside := SkipSpace(PrintMembers(members) + ("}" + rest));
      && inside != [] && inside[0] != '}' && ReadMembers(inside, strict) == Ok(Read(Fields(members), rest))
    decreases members
  {
    hide MayFollow, ReadMember, ReadMembers, PrintMember, PrintMembers, SkipSpace, MemberOk, Print, ValueOf, KeyOf;
    var m, end := members[0], "}" + rest;
    var tail := if |members| == 1 then end else "," + (PrintMembers(members[1..]) + end);
    PunctuationFollows(if |members| == 1 then '}' else ',', tail[1..]);
    assert tail == [tail[0]] + tail[1..];
    MembersText(members, end);
    MemberReads(m, strict, tail);
    var inside := SkipSpace(PrintMember(m) + tail);
    var first := Field(KeyOf(m), ValueOf(m.item.tree));
    if |members| > 1 {
      MembersRead(members[1..], strict, rest);
      assert tail[1..] == PrintMembers(members[1..]) + end;
      MembersStep(inside, strict, first, m.item.after + tail, Fields(members[1..]), rest);
    } else {
      assert members[1..] == [] && Fields(members) == [first] && tail[1..] == rest;
      MembersStep(inside, strict, first, m.item.after + tail, [], rest);
    }
  }

  lemma MemberIsText(m: Member, tail: string)
    ensures PrintMember(m) + tail ==
            m.before + ("\"" + (UnitsText(m.key) + "\"" +
                                (m.afterKey + (":" + (m.item.before + (Print(m.item.tree) + (m.item.after + tail)))))))
  {
    hide Print, UnitsText;
    FourTexts(m.item.before, Print(m.item.tree), m.item.after, tail);
    MemberText(m.before, UnitsText(m.key), m.afterKey, PrintItem(m.item), tail);
  }

  lemma {:induction false} MemberReads(m: Member, strict: bool, tail: string)
    requires MemberOk(m, strict) && tail != [] && !Space(tail[0]) && MayFollow(tail)
    ensures var inside := SkipSpace(PrintMember(m) + tail);
      && inside != [] && inside[0] == QUOTE
      && ReadMember(inside, strict) == Ok(Read(Field(KeyOf(m), ValueOf(m.item.tree)), m.item.after + tail))
    ensures SkipSpace(m.item.after + tail) == tail
    decreases m
  {
    hide MayFollow, ReadValue, SkipSpace, Print, ValueOf, UnitsText, ReadChars, Blanks, TreeOk, UnitsChars, UnitsOk;
    var inside := Print(m.item.tree) + (m.item.after + tail);
    var colon := ":" + (m.item.before + inside);
    var quoted := "\"" + (UnitsText(m.key) + "\"" + (m.afterKey + colon));
    MemberIsText(m, tail);
    SkipsBlanks(m.before, quoted);
    UnitsRead(m.key, m.afterKey + colon);
    SkipsBlanks(m.afterKey, colon);
    assert colon[1..] == m.item.before + inside;
    ItemSkips(m.item, strict, tail);
    TreeReads(m.item.tree, strict, m.item.after + tail);
    assert quoted[1..] == UnitsText(m.key) + "\"" + (m.afterKey + colon);
  }

  // What is read was written

  /** The value read from a text is that of a tree, printed at its beginning. */
  lemma {:induction false} ValueIsWritten(text: string, strict: bool) returns (t: Tree)
    requires ReadValue(text, strict).Ok?
    ensures TreeOk(t, strict) && ValueOf(t) == ReadValue(text, strict).value.value
    ensures text == Print(t) + ReadValue(text, strict).value.rest
    decreases |text|, 0
  {
    hide ReadChars, ReadWord, ReadItems, ReadMembers, SkipSpace, TreeOk, Print, ValueOf;
    if text[0] == QUOTE {
      t := QuotedIsWritten(text, strict);
    } else if text[0] == '[' {
      t := ListIsWritten(text, strict);
    } else if text[0] == '{' {
      t := DictIsWritten(text, strict);
    } else {
      t := WordIsWritten(text);
      WordIsLoose(t, strict);
    }
  }

  lemma WordIsLoose(t: Tree, strict: bool)
    requires (t.Word? || t.Number?) && TreeOk(t, true)
    ensures TreeOk(t, strict)
  {
    hide Decimal;
  }

  lemma QuotedIsMade(units: seq<Unit>, strict: bool)
    requires UnitsOk(units)
    ensures var t := Quoted(units);
      TreeOk(t, strict) && ValueOf(t) == Str(UnitsChars(units)) && Print(t) == "\"" + UnitsText(units) + "\""
  {
  }

  lemma QuotedIsWritten(text: string, strict: bool) returns (t: Tree)
    requires text != [] && text[0] == QUOTE && ReadValue(text, strict).Ok?
    ensures TreeOk(t, strict) && ValueOf(t) == ReadValue(text, strict).value.value
    ensures text == Print(t) + ReadValue(text, strict).value.rest
  {
    hide ReadChars, ReadWord, ReadItems, ReadMembers, SkipSpace, TreeOk, Print, ValueOf, UnitsText, UnitsChars, UnitsOk;
    var units := CharsAreWritten(text[1..]);
    var rest := ReadChars(text[1..]).value.rest;
    t := Quoted(units);
    QuotedIsMade(units, strict);
    assert text == "\"" + text[1..];
    FourTexts("\"", UnitsText(units), "\"", rest);
    TwoTexts(UnitsText(units), "\"", rest);
  }

  lemma ListIsMade(inside: string, items: seq<Item>, strict: bool)
    requires Blanks(inside) && forall i :: 0 <= i < |items| ==> ItemOk(items[i], strict)
    ensures var t := List(inside, items);
      && TreeOk(t, strict) && ValueOf(t) == Arr(Values(items))
      && Print(t) == "[" + (if items == [] then inside else PrintItems(items)) + "]"
  {
  }

  lemma {:induction false} ListIsWritten(text: string, strict: bool) returns (t: Tree)
    requires text != [] && text[0] == '[' && ReadValue(text, strict).Ok?
    ensures TreeOk(t, strict) && ValueOf(t) == ReadValue(text, strict).value.value
    ensures text == Print(t) + ReadValue(text, strict).value.rest
    decreases |text|, -1
  {
    hide ReadChars, ReadWord, ReadItems, ReadMembers, SkipSpace, TreeOk, Print, ValueOf, Blanks;
    assert text == "[" + text[1..];
    var blanks := Skipped(text[1..]);
    var inside := SkipSpace(text[1..]);
    if inside != [] && inside[0] == ']' {
      t := List(blanks, []);
      ListIsMade(blanks, [], strict);
      assert inside == "]" + inside[1..];
      FourTexts("[", blanks, "]", inside[1..]);
    } else {
      var items := ItemsAreWritten(inside, strict, blanks);
      t := List("", items);
      NoBlanks();
      ListIsMade("", items, strict);
      FourTexts("[", PrintItems(items), "]", ReadItems(inside, strict).value.rest);
      TwoTexts(PrintItems(items), "]", ReadItems(inside, strict).value.rest);
    }
  }

  lemma NoBlanks()
    ensures Blanks("")
  {
  }

  lemma ItemIsMade(before: string, t: Tree, after: string, strict: bool)
    requires Blanks(before) && Blanks(after) && TreeOk(t, strict)
    ensures ItemOk(Item(before, t, after), strict)
    ensures PrintItem(Item(before, t, after)) == before + Print(t) + after
  {
    hide TreeOk, Print, Blanks;
  }

  /** The items after some blanks, and the bracket that closes them. */
  lemma {:induction false} ItemsAreWritten(text: string, strict: bool, before: string) returns (items: seq<Item>)
    requires Blanks(before) && ReadItems(text, strict).Ok?
    ensures items != [] && forall i :: 0 <= i < |items| ==> ItemOk(items[i], strict)
    ensures Values(items) == ReadItems(text, strict).value.value
    ensures before + text == PrintItems(items) + "]" + ReadItems(text, strict).value.rest
    decreases |text|, 1
  {
    hide ReadValue, SkipSpace, TreeOk, Print, ValueOf, Blanks, ItemOk, PrintItem;
    var t := ValueIsWritten(text, strict);
    var after := ReadValue(text, strict).value.rest;
    var blanks := Skipped(after);
    var next := SkipSpace(after);
    var item := Item(before, t, blanks);
    ItemIsMade(before, t, blanks, strict);
    FourTexts(before, Print(t), blanks, next);
    assert before + text == PrintItem(item) + next by {
      TwoTexts(Print(t), blanks, next);
    }
    assert next == [next[0]] + next[1..];
    if next[0] == ']' {
      items := [item];
      assert items[1..] == [];
      TwoTexts(PrintItem(item), "]", next[1..]);
    } else {
      var gap := Skipped(next[1..]);
      var more := ItemsAreWritten(SkipSpace(next[1..]), strict, gap);
      items := [item] + more;
      assert items[1..] == more;
      var rest := ReadItems(SkipSpace(next[1..]), strict).value.rest;
      ThreeTexts(PrintItem(item), PrintItems(more), "]" + rest);
      TwoTexts(PrintItems(more), "]", rest);
      TwoTexts(PrintItem(item) + "," + PrintItems(more), "]", rest);
    }
  }

  lemma DictIsMade(inside: string, members: seq<Member>, strict: bool)
    requires Blanks(inside) && forall i :: 0 <= i < |members| ==> MemberOk(members[i], strict)
    requires strict ==> DistinctKeys(Fields(members))
    ensures var t := Dict(inside, members);
      && TreeOk(t, strict) && ValueOf(t) == Obj(Fields(members))
      && Print(t) == "{" + (if members == [] then inside else PrintMembers(members)) + "}"
  {
    hide KeyOf, MemberOk, Fields;
    KeysAreFields(members);
  }

  lemma {:induction false} DictIsWritten(text: string, strict: bool) returns (t: Tree)
    requires text != [] && text[0] == '{' && ReadValue(text, strict).Ok?
    ensures TreeOk(t, strict) && ValueOf(t) == ReadValue(text, strict).value.value
    ensures text == Print(t) + ReadValue(text, strict).value.rest
    decreases |text|, -1
  {
    hide ReadChars, ReadWord, ReadItems, ReadMembers, SkipSpace, TreeOk, Print, ValueOf, Blanks;
    assert text == "{" + text[1..];
    var blanks := Skipped(text[1..]);
    var inside := SkipSpace(text[1..]);
    if inside != [] && inside[0] == '}' {
      t := Dict(blanks, []);
      DictIsMade(blanks, [], strict);
      assert inside == "}" + inside[1..];
      FourTexts("{", blanks, "}", inside[1..]);
    } else {
      var members := MembersAreWritten(inside, strict, blanks);
      t := Dict("", members);
      NoBlanks();
      DictIsMade("", members, strict);
      FourTexts("{", PrintMembers(members), "}", ReadMembers(inside, strict).value.rest);
      TwoTexts(PrintMembers(members), "}", ReadMembers(inside, strict).value.rest);
    }
  }

  lemma MemberIsMade(before: string, key: seq<Unit>, afterKey: string, item: Item, strict: bool)
    requires Blanks(before) && UnitsOk(key) && Blanks(afterKey) && ItemOk(item, strict)
    ensures var m := Member(before, key, afterKey, item);
      && MemberOk(m, strict) && KeyOf(m) == UnitsChars(key)
      && PrintMember(m) == before + "\"" + UnitsText(key) + "\"" + afterKey + ":" + PrintItem(item)
  {
    hide ItemOk, Blanks, PrintItem, UnitsText;
  }

  lemma MemberText(before: string, key: string, afterKey: string, item: string, rest: string)
    ensures before + ("\"" + (key + "\"" + (afterKey + (":" + (item + rest))))) ==
            before + "\"" + key + "\"" + afterKey + ":" + item + rest
  {
  }

  lemma {:induction false} MemberIsWritten(text: string, strict: bool, before: string, end: string) returns (m: Member)
    requires Blanks(before) && ReadMember(text, strict).Ok?
    requires Blanks(end)
    ensures MemberOk(m, strict)
    ensures ReadMember(text, strict).value.value == Field(KeyOf(m), ValueOf(m.item.tree)) && m.item.after == end
    ensures forall rest :: ReadMember(text, strict).value.rest == end + rest ==> before + text == PrintMember(m) + rest
    decreases |text|, 1
  {
    hide ReadValue, ReadChars, SkipSpace, TreeOk, Print, ValueOf, Blanks, ItemOk, PrintItem, PrintMember, MemberOk,
      KeyOf, UnitsText, UnitsChars, UnitsOk;
    var key := CharsAreWritten(text[1..]);
    var after := ReadChars(text[1..]).value.rest;
    var afterKey := Skipped(after);
    var colon := SkipSpace(after);
    var gap := Skipped(colon[1..]);
    var value := SkipSpace(colon[1..]);
    var t := ValueIsWritten(value, strict);
    var item := Item(gap, t, end);
    ItemIsMade(gap, t, end, strict);
    m := Member(before, key, afterKey, item);
    MemberIsMade(before, key, afterKey, item, strict);
    forall rest | ReadMember(text, strict).value.rest == end + rest ensures before + text == PrintMember(m) + rest {
      MemberText(before, UnitsText(key), afterKey, PrintItem(item), rest);
      FourTexts(gap, Print(t), end, rest);
      assert colon == ":" + colon[1..];
      assert text == "\"" + text[1..];
      assert colon == ":" + (PrintItem(item) + rest);
      assert text[1..] == UnitsText(key) + "\"" + (afterKey + colon);
    }
  }

  /** The members after some blanks, and the brace that closes them. */
  lemma {:induction false} MembersAreWritten(text: string, strict: bool, before: string) returns (members: seq<Member>)
    requires Blanks(before) && ReadMembers(text, strict).Ok?
    ensures members != [] && forall i :: 0 <= i < |members| ==> MemberOk(members[i], strict)
    ensures Fields(members) == ReadMembers(text, strict).value.value
    ensures before + text == PrintMembers(members) + "}" + ReadMembers(text, strict).value.rest
    decreases |text|, 2
  {
    hide ReadMember, SkipSpace, TreeOk, Print, ValueOf, Blanks, MemberOk, PrintMember, KeyOf;
    var after := ReadMember(text, strict).value.rest;
    var blanks := Skipped(after);
    var next := SkipSpace(after);
    var m := MemberIsWritten(text, strict, before, blanks);
    assert before + text == PrintMember(m) + next;
    assert next == [next[0]] + next[1..];
    if next[0] == '}' {
      members := [m];
      assert members[1..] == [];
      TwoTexts(PrintMember(m), "}", next[1..]);
    } else {
      var gap := Skipped(next[1..]);
      var more := MembersAreWritten(SkipSpace(next[1..]), strict, gap);
      members := [m] + more;
      assert members[1..] == more;
      var rest := ReadMembers(SkipSpace(next[1..]), strict).value.rest;
      ThreeTexts(PrintMember(m), PrintMembers(more), "}" + rest);
      TwoTexts(PrintMembers(more), "}", rest);
      TwoTexts(PrintMember(m) + "," + PrintMembers(more), "}", rest);
    }
  }

  // Whole texts

  /** The text is the tree with blanks around it. */
  predicate Spells(text: string, before: string, t: Tree, after: string, strict: bool) {
    Blanks(before) && Blanks(after) && TreeOk(t, strict) && text == before + Print(t) + after
  }

  lemma SpelledLoads(text: string, before: string, t: Tree, after: string, strict: bool)
    requires Spells(text, before, t, after, strict)
    ensures Loads(text, strict) == Ok(ValueOf(t))
  {
    hide TreeOk, Print, ValueOf, ReadValue, Blanks, SkipSpace;
    PrintBegins(t, strict);
    TwoTexts(before, Print(t), after);
    SkipsBlanks(before, Print(t) + after);
    BlanksFollow(after);
    TreeReads(t, strict, after);
    SkipsBlanks(after, "");
    assert after + "" == after;
  }

  lemma BlanksFollow(blanks: string)
    requires Blanks(blanks)
    ensures MayFollow(blanks)
  {
    FollowsAfterBlanks(blanks, "");
    assert blanks + "" == blanks;
  }

  lemma LoadedIsSpelled(text: string, strict: bool) returns (before: string, t: Tree, after: string)
    requires Loads(text, strict).Ok?
    ensures Spells(text, before, t, after, strict) && TreeOk(t, strict) && Loads(text, strict) == Ok(ValueOf(t))
  {
    hide TreeOk, Print, ValueOf, ReadValue, Blanks, SkipSpace;
    before := Skipped(text);
    t := ValueIsWritten(SkipSpace(text), strict);
    after := Skipped(ReadValue(SkipSpace(text), strict).value.rest);
    assert after + "" == after;
    TwoTexts(before, Print(t), after);
  }

  ghost predicate Writes(text: string, v: Json) {
    exists before, t, after :: Spells(text, before, t, after, true) && t.Dict? && ValueOf(t) == v
  }

  /** The strict loader takes exactly the texts that write an object with integers for numbers, no key twice in any
      object, no control character or half of a surrogate pair in any string, and nothing but blanks around it. */
  lemma LoadsExactly(text: string, v: Json)
    ensures Load(text) == Ok(v) <==> Writes(text, v)
  {
    hide Loads, Spells, ValueOf, TreeOk;
    if Load(text) == Ok(v) {
      var before, t, after := LoadedIsSpelled(text, true);
      OnlyObjects(t, true);
      assert Spells(text, before, t, after, true) && t.Dict? && ValueOf(t) == v;
    }
    if Writes(text, v) {
      var before, t, after :| Spells(text, before, t, after, true) && t.Dict? && ValueOf(t) == v;
      SpelledLoads(text, before, t, after, true);
      ObjectsAreObjects(t);
      NoByteOrderMark(text, before, t, after);
    }
  }

  lemma OnlyObjects(t: Tree, strict: bool)
    requires TreeOk(t, strict)
    ensures ValueOf(t).Obj? ==> t.Dict?
  {
  }

  lemma ObjectsAreObjects(t: Tree)
    ensures t.Dict? ==> ValueOf(t).Obj?
  {
  }

  lemma NoByteOrderMark(text: string, before: string, t: Tree, after: string)
    requires Spells(text, before, t, after, true) && t.Dict?
    ensures text != [] && text[0] as int != 0xFEFF
  {
    if before == [] {
      assert text[0] == Print(t)[0] == '{';
    } else {
      assert text[0] == before[0];
    }
  }

  // Refusals with a name

  /** A fraction or an exponent. */
  predicate MakesAFloat(rest: string) {
    || (|rest| >= 2 && rest[0] == '.' && rest[1] in "0123456789")
    || (|rest| >= 2 && rest[0] in "eE" && rest[1] in "0123456789")
    || (|rest| >= 3 && rest[0] in "eE" && rest[1] in "+-" && rest[2] in "0123456789")
  }

  lemma FloatsGoOn(rest: string)
    ensures MakesAFloat(rest) <==> GoesOnAsFloat(rest)
    ensures MakesAFloat(rest) ==> rest != [] && !IsDigit(rest[0])
  {
  }

  /** A number with a fraction or an exponent is refused as a float, wherever a value stands. */
  lemma FloatsAreNamed(negative: bool, digits: string, n: nat, rest: string, strict: bool)
    requires Decimal(digits, n) && MakesAFloat(rest)
    ensures ReadValue((if negative then "-" else "") + digits + rest, strict) == Err(FloatNotAllowed)
  {
    hide Decimal, MakesAFloat, GoesOnAsFloat, ReadDigits, ReadWord;
    DecimalDigits(digits, n);
    FloatsGoOn(rest);
    FloatDigits(digits, n, rest);
    var text := (if negative then "-" else "") + digits + rest;
    assert text[0] == if negative then '-' else digits[0];
    NotMinus(digits[0]);
    if negative {
      assert text[1..] == digits + rest && text[1] == digits[0];
    } else {
      assert text == digits + rest;
    }
    NoWord(text);
    NumberIsNoOther(text[0]);
  }

  lemma FloatDigits(digits: string, n: nat, rest: string)
    requires Decimal(digits, n) && GoesOnAsFloat(rest) && rest != [] && !IsDigit(rest[0])
    ensures ReadDigits(digits + rest) == Err(FloatNotAllowed)
  {
    hide Decimal, GoesOnAsFloat, IsDigit;
    DecimalDigits(digits, n);
    RunOfDigits(digits, rest);
    assert (digits + rest)[0] == digits[0];
    assert (digits + rest)[..|digits|] == digits && (digits + rest)[|digits|..] == rest;
  }

  /** So are the three words for what is no number. */
  lemma NonfiniteIsNamed(word: string, rest: string, strict: bool)
    requires word == "NaN" || word == "Infinity" || word == "-Infinity"
    ensures ReadValue(word + rest, strict) == Err(Nonfinite)
  {
    var text := word + rest;
    assert text[..|word|] == word && text[0] == word[0];
    assert "null"[0] == 'n' && "true"[0] == 't' && "false"[0] == 'f';
  }
}

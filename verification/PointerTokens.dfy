/** What a pointer's text and its tokens stand for: the parts of a path, and the places of a list. */
module PointerTokens {
  import opened JsonValues
  import opened JsonPointer

  // Parts

  /** Every part with a slash in front of it. */
  function Slashed(parts: seq<string>): string {
    if parts == [] then "" else "/" + parts[0] + Slashed(parts[1..])
  }

  lemma {:induction false} SlashedSplits(parts: seq<string>)
    requires parts != [] && forall i :: 0 <= i < |parts| ==> '/' !in parts[i]
    ensures Slashed(parts) != [] && Slashed(parts)[0] == '/' && Split(Slashed(parts)[1..]) == parts
    decreases |parts|
  {
    hide Split;
    var rest := Slashed(parts[1..]);
    assert ("/" + parts[0] + rest)[1..] == parts[0] + rest;
    assert parts == [parts[0]] + parts[1..];
    if |parts| == 1 {
      assert parts[0] + rest == parts[0];
      SplitFirst(parts[0], "");
    } else {
      SlashedSplits(parts[1..]);
      assert rest == "/" + rest[1..];
      assert parts[0] + rest == parts[0] + "/" + rest[1..];
      SplitFirst(parts[0], rest[1..]);
    }
  }

  /** A pointer is nothing, or parts that each follow a slash; its tokens are those parts, decoded. Anything else is
      refused. */
  lemma PointerIsItsParts(parts: seq<string>, pointer: string)
    requires forall i :: 0 <= i < |parts| ==> '/' !in parts[i]
    ensures Tokens(Slashed(parts)) == Some(DecodeAll(parts))
    ensures Tokens(pointer).None? <==> pointer != "" && pointer[0] != '/'
  {
    hide Split, Decode;
    if parts != [] {
      SlashedSplits(parts);
    }
  }

  // Integers

  /** What Python takes for white space, of the ASCII characters. */
  predicate Blank(c: char) {
    c as int in {9, 10, 11, 12, 13, 28, 29, 30, 31, 32}
  }

  predicate Blanks(text: string) {
    forall i :: 0 <= i < |text| ==> Blank(text[i])
  }

  predicate IsDigit(c: char) {
    c in "0123456789"
  }

  /** Digits, and underscores between two of them. */
  predicate Numeral(text: string) {
    text != [] && forall i :: 0 <= i < |text| ==> InNumeral(text, i)
  }

  predicate InNumeral(text: string, i: nat)
    requires i < |text|
  {
    || IsDigit(text[i])
    || (text[i] == '_' && 0 < i < |text| - 1 && IsDigit(text[i - 1]) && IsDigit(text[i + 1]))
  }

  lemma DigitsAreDigits(c: char)
    ensures IsDigit(c) <==> '0' <= c <= '9'
  {
  }

  lemma NumeralExactly(text: string)
    ensures Numeral(text) <==> IntegerBody(text)
  {
    hide IsDigit;
    forall c ensures IsDigit(c) <==> '0' <= c <= '9' {
      DigitsAreDigits(c);
    }
    if Numeral(text) {
      assert InNumeral(text, 0) && InNumeral(text, |text| - 1);
      forall i | 0 <= i < |text| ensures '0' <= text[i] <= '9' || text[i] == '_' {
        assert InNumeral(text, i);
      }
      forall i | 0 <= i < |text| - 1 ensures text[i] != '_' || text[i + 1] != '_' {
        assert InNumeral(text, i);
      }
    }
    if IntegerBody(text) {
      forall i | 0 <= i < |text| ensures InNumeral(text, i) {
        if text[i] == '_' {
          assert text[i - 1] != '_';
        }
      }
    }
  }

  /** A numeral's number: each digit counts for ten times the one after it, underscores for nothing. */
  lemma NumeralReads(text: string, d: nat)
    requires d < 10
    ensures BodyValue("") == 0
    ensures BodyValue(text + [('0' as int + d) as char]) == 10 * BodyValue(text) + d
    ensures BodyValue(text + "_") == BodyValue(text)
  {
    var c := ('0' as int + d) as char;
    assert (text + [c])[..|text|] == text && (text + "_")[..|text|] == text;
  }

  /** A sign, or none. */
  predicate IsSign(text: string) {
    text == "" || text == "+" || text == "-"
  }

  lemma {:induction false} StripsLeft(left: string, rest: string)
    requires Blanks(left) && (rest != [] ==> !Blank(rest[0]))
    ensures StripLeft(left + rest) == rest
    decreases |left|
  {
    if left == [] {
      assert left + rest == rest;
    } else {
      assert (left + rest)[1..] == left[1..] + rest;
      StripsLeft(left[1..], rest);
    }
  }

  lemma {:induction false} StripsRight(rest: string, right: string)
    requires Blanks(right) && (rest != [] ==> !Blank(rest[|rest| - 1]))
    ensures StripRight(rest + right) == rest
    decreases |right|
  {
    if right == [] {
      assert rest + right == rest;
    } else {
      var fewer := right[..|right| - 1];
      assert (rest + right)[..|rest + right| - 1] == rest + fewer;
      assert (rest + right)[|rest + right| - 1] == right[|right| - 1];
      StripsRight(rest, fewer);
    }
  }

  lemma {:induction false} StrippedLeft(text: string) returns (left: string)
    ensures Blanks(left) && text == left + StripLeft(text)
    decreases |text|
  {
    left := "";
    if text != [] && PythonSpace(text[0]) {
      var more := StrippedLeft(text[1..]);
      left := [text[0]] + more;
      assert text == [text[0]] + text[1..];
    }
  }

  lemma {:induction false} StrippedRight(text: string) returns (right: string)
    ensures Blanks(right) && text == StripRight(text) + right
    decreases |text|
  {
    right := "";
    if text != [] && PythonSpace(text[|text| - 1]) {
      var fewer := StrippedRight(text[..|text| - 1]);
      right := fewer + [text[|text| - 1]];
      assert text == text[..|text| - 1] + [text[|text| - 1]];
    }
  }

  lemma NumeralIsBare(sign: string, body: string)
    requires IsSign(sign) && Numeral(body)
    ensures sign + body != [] && !Blank((sign + body)[0]) && !Blank((sign + body)[|sign + body| - 1])
    ensures body[0] != '+' && body[0] != '-'
  {
    assert InNumeral(body, 0) && InNumeral(body, |body| - 1);
    DigitsAreDigits(body[0]);
    DigitsAreDigits(body[|body| - 1]);
  }

  /** Blanks, a sign and a numeral are read as the number. */
  lemma SpelledIsRead(left: string, sign: string, body: string, right: string)
    requires Blanks(left) && Blanks(right) && IsSign(sign) && Numeral(body)
    ensures PythonInt(left + (sign + body) + right) == Some(if sign == "-" then -BodyValue(body) else BodyValue(body))
  {
    hide Numeral, IntegerBody, Blank;
    NumeralIsBare(sign, body);
    NumeralExactly(body);
    assert left + (sign + body) + right == left + ((sign + body) + right);
    assert ((sign + body) + right)[0] == (sign + body)[0];
    StripsLeft(left, (sign + body) + right);
    StripsRight(sign + body, right);
    assert sign != "" ==> (sign + body)[1..] == body;
    assert sign == "" ==> sign + body == body;
  }

  /** And nothing else is read as a number. */
  lemma ReadIsSpelled(token: string) returns (left: string, sign: string, body: string, right: string)
    requires PythonInt(token).Some?
    ensures Blanks(left) && Blanks(right) && IsSign(sign) && Numeral(body) && token == left + (sign + body) + right
    ensures PythonInt(token) == Some(if sign == "-" then -BodyValue(body) else BodyValue(body))
  {
    hide Numeral, Blank, StripLeft, StripRight;
    left := StrippedLeft(token);
    right := StrippedRight(StripLeft(token));
    var text := StripRight(StripLeft(token));
    sign, body := if text[0] == '-' then "-" else if text[0] == '+' then "+" else "",
      if text[0] == '-' || text[0] == '+' then text[1..] else text;
    NumeralExactly(body);
    assert text == sign + body;
  }

  // Places

  /** In a list a token leads to the place it counts from the start, or, when it is negative, from the end; in an object
      it is the key; in any other value it leads nowhere. */
  lemma TokenLeads(node: Json, token: string, k: nat)
    ensures HopOf(node, token) == Some(AtIndex(k)) <==>
            && node.Arr? && k < |node.items|
            && (PythonInt(token) == Some(k) || PythonInt(token) == Some(k - |node.items|))
    ensures HopOf(node, token) == Some(AtKey(token)) <==> node.Obj?
    ensures !node.Arr? && !node.Obj? ==> HopOf(node, token).None?
  {
    hide PythonInt;
  }
}

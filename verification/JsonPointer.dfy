/** JSON pointers as src/aar/provider_ready_contract_generator.py reads and writes through them. */
module JsonPointer {
  import opened JsonValues

  // Text and tokens (sections 3 and 4 of RFC 6901)

  /** `text.replace("~" + second, put)`. */
  function Replace(text: string, second: char, put: char): string {
    if text == [] then []
    else if |text| > 1 && text[0] == '~' && text[1] == second then [put] + Replace(text[2..], second, put)
    else [text[0]] + Replace(text[1..], second, put)
  }

  function Decode(token: string): string {
    Replace(Replace(token, '1', '/'), '0', '~')
  }

  function Encode(token: string): string {
    if token == [] then []
    else (if token[0] == '~' then "~0" else if token[0] == '/' then "~1" else [token[0]]) + Encode(token[1..])
  }

  /** `text.split("/")`. */
  function Split(text: string): (r: seq<string>)
    ensures r != []
  {
    if text == [] then [[]]
    else if text[0] == '/' then [[]] + Split(text[1..])
    else
      var rest := Split(text[1..]);
      [[text[0]] + rest[0]] + rest[1..]
  }

  function DecodeAll(tokens: seq<string>): seq<string> {
    if tokens == [] then [] else [Decode(tokens[0])] + DecodeAll(tokens[1..])
  }

  /** `_pointer_tokens`; none where it raises. */
  function Tokens(pointer: string): Option<seq<string>> {
    if pointer == [] then Some([])
    else if pointer[0] != '/' then None
    else Some(DecodeAll(Split(pointer[1..])))
  }

  function Join(tokens: seq<string>): string {
    if tokens == [] then [] else "/" + (Encode(tokens[0]) + Join(tokens[1..]))
  }

  /** The text after the first replacement: slashes are back, tildes are not yet. */
  function HalfDecoded(token: string): string {
    if token == [] then []
    else (if token[0] == '~' then "~0" else [token[0]]) + HalfDecoded(token[1..])
  }

  lemma {:induction false} DecodesHalf(token: string)
    ensures Replace(Encode(token), '1', '/') == HalfDecoded(token)
  {
    if token != [] {
      DecodesHalf(token[1..]);
      var rest := Encode(token[1..]);
      if token[0] == '~' {
        assert (['~', '0'] + rest)[1..] == ['0'] + rest;
        assert "~0" + rest == ['~', '0'] + rest;
      } else if token[0] == '/' {
        assert "~1" + rest == ['~', '1'] + rest;
      }
    }
  }

  lemma {:induction false} DecodesRest(token: string)
    ensures Replace(HalfDecoded(token), '0', '~') == token
  {
    if token != [] {
      DecodesRest(token[1..]);
      var rest := HalfDecoded(token[1..]);
      if token[0] == '~' {
        assert "~0" + rest == ['~', '0'] + rest;
      }
      assert token == [token[0]] + token[1..];
    }
  }

  lemma {:induction false} SplitFirst(first: string, rest: string)
    requires forall i :: 0 <= i < |first| ==> first[i] != '/'
    ensures Split(first) == [first]
    ensures Split(first + "/" + rest) == [first] + Split(rest)
  {
    var text := first + "/" + rest;
    if first == [] {
      assert text[1..] == rest;
    } else {
      SplitFirst(first[1..], rest);
      assert text[1..] == first[1..] + "/" + rest;
      assert first == [first[0]] + first[1..];
    }
  }

  lemma {:induction false} EncodedHasNoSlash(token: string)
    ensures forall i :: 0 <= i < |Encode(token)| ==> Encode(token)[i] != '/'
  {
    if token != [] {
      EncodedHasNoSlash(token[1..]);
    }
  }

  /** The first token of a joined path, and the rest of it. */
  lemma SplitsFirst(token: string, rest: string)
    ensures DecodeAll(Split(Encode(token))) == [token]
    ensures DecodeAll(Split(Encode(token) + "/" + rest)) == [token] + DecodeAll(Split(rest))
  {
    EncodedHasNoSlash(token);
    DecodeUndoesEncode(token);
    hide Decode, Encode, Split;
    var first := Encode(token);
    SplitFirst(first, rest);
    assert [first][1..] == [];
    assert ([first] + Split(rest))[1..] == Split(rest);
  }

  lemma {:induction false} SplitsJoined(tokens: seq<string>)
    requires tokens != []
    ensures DecodeAll(Split(Join(tokens)[1..])) == tokens
  {
    hide *;
    JoinsFirst(tokens);
    if |tokens| == 1 {
      SplitsFirst(tokens[0], []);
    } else {
      SplitsJoined(tokens[1..]);
      SplitsFirst(tokens[0], Join(tokens[1..])[1..]);
    }
  }

  lemma JoinsFirst(tokens: seq<string>)
    requires tokens != []
    ensures Join(tokens) != [] && tokens == [tokens[0]] + tokens[1..]
    ensures |tokens| == 1 ==> Join(tokens)[1..] == Encode(tokens[0]) && [tokens[0]] == tokens
    ensures |tokens| > 1 ==>
              Join(tokens[1..]) != [] && Join(tokens)[1..] == Encode(tokens[0]) + "/" + Join(tokens[1..])[1..]
  {
    hide *;
    JoinUnfolds(tokens);
    var first := Encode(tokens[0]);
    AfterSlash(first + Join(tokens[1..]), first);
    if |tokens| > 1 {
      JoinUnfolds(tokens[1..]);
      AfterSlash(Encode(tokens[1..][0]) + Join(tokens[1..][1..]), first);
    } else {
      JoinOfNone();
      assert tokens[1..] == [];
      assert first + [] == first;
    }
  }

  lemma JoinUnfolds(tokens: seq<string>)
    requires tokens != []
    ensures Join(tokens) == "/" + (Encode(tokens[0]) + Join(tokens[1..]))
  {
  }

  lemma JoinOfNone()
    ensures Join([]) == []
  {
  }

  lemma AfterSlash(text: string, before: string)
    ensures ("/" + text)[1..] == text
    ensures before + ("/" + text) == before + "/" + text
  {
  }

  lemma DecodeUndoesEncode(token: string)
    ensures Decode(Encode(token)) == token
  {
    DecodesHalf(token);
    DecodesRest(token);
  }

  /** Every token sequence survives being written as a pointer and read back. */
  lemma TokensUndoJoin(tokens: seq<string>)
    ensures Tokens(Join(tokens)) == Some(tokens)
  {
    if tokens != [] {
      SplitsJoined(tokens);
    }
  }

  // The other order

  /** The text after "~0" alone is undone: tildes are back, slashes are not yet. */
  function SlashesEscaped(token: string): string {
    if token == [] then []
    else (if token[0] == '/' then "~1" else [token[0]]) + SlashesEscaped(token[1..])
  }

  predicate TildeOneAt(token: string, i: nat) {
    i + 1 < |token| && token[i] == '~' && token[i + 1] == '1'
  }

  lemma {:induction false} TildesFirst(token: string)
    ensures Replace(Encode(token), '0', '~') == SlashesEscaped(token)
  {
    if token != [] {
      TildesFirst(token[1..]);
      var rest := Encode(token[1..]);
      if token[0] == '~' {
        assert "~0" + rest == ['~', '0'] + rest && (['~', '0'] + rest)[2..] == rest;
      } else if token[0] == '/' {
        assert "~1" + rest == ['~', '1'] + rest && (['~', '1'] + rest)[1..] == ['1'] + rest;
        assert (['1'] + rest)[1..] == rest;
      } else {
        assert ([token[0]] + rest)[1..] == rest;
      }
    }
  }

  /** One step of the second replacement. */
  lemma SlashesNext(token: string)
    requires token != []
    ensures TildeOneAt(token, 0) ==>
              Replace(SlashesEscaped(token), '1', '/') == ['/'] + Replace(SlashesEscaped(token[2..]), '1', '/')
    ensures !TildeOneAt(token, 0) ==>
              Replace(SlashesEscaped(token), '1', '/') == [token[0]] + Replace(SlashesEscaped(token[1..]), '1', '/')
  {
    var rest := SlashesEscaped(token[1..]);
    if TildeOneAt(token, 0) {
      assert token[1..][1..] == token[2..];
      assert rest == ['1'] + SlashesEscaped(token[2..]);
      assert (['~'] + rest)[2..] == SlashesEscaped(token[2..]);
    } else if token[0] == '/' {
      assert "~1" + rest == ['~', '1'] + rest && (['~', '1'] + rest)[2..] == rest;
    } else {
      assert ([token[0]] + rest)[1..] == rest;
      assert token[0] == '~' && rest != [] ==> rest[0] != '1';
    }
  }

  lemma {:induction false} SlashesLast(token: string)
    ensures |Replace(SlashesEscaped(token), '1', '/')| <= |token|
    ensures Replace(SlashesEscaped(token), '1', '/') == token <==> forall i: nat :: !TildeOneAt(token, i)
    decreases |token|
  {
    if token != [] {
      SlashesNext(token);
      if TildeOneAt(token, 0) {
        SlashesLast(token[2..]);
      } else {
        SlashesLast(token[1..]);
        assert token == [token[0]] + token[1..];
        forall i: nat ensures TildeOneAt(token, i + 1) <==> TildeOneAt(token[1..], i) {
        }
        assert (exists i: nat :: TildeOneAt(token, i)) ==> exists i: nat :: TildeOneAt(token[1..], i) by {
          if i: nat :| TildeOneAt(token, i) {
            assert TildeOneAt(token[1..], i - 1);
          }
        }
      }
    }
  }

  /** Undoing the escapes in the other order returns a token if and only if it nowhere has "~1". */
  lemma OrderOfReplacementMatters(token: string)
    ensures Replace(Replace(Encode(token), '0', '~'), '1', '/') == token <==> forall i: nat :: !TildeOneAt(token, i)
  {
    TildesFirst(token);
    SlashesLast(token);
  }

  // Following a pointer

  predicate PythonSpace(c: char) {
    c == ' ' || 9 <= c as int <= 13 || 28 <= c as int <= 31
  }

  function StripLeft(text: string): string {
    if text != [] && PythonSpace(text[0]) then StripLeft(text[1..]) else text
  }

  function StripRight(text: string): string {
    if text != [] && PythonSpace(text[|text| - 1]) then StripRight(text[..|text| - 1]) else text
  }

  /** Digits, with single underscores allowed between them. */
  predicate IntegerBody(text: string) {
    && text != [] && '0' <= text[0] <= '9' && '0' <= text[|text| - 1] <= '9'
    && (forall i :: 0 <= i < |text| ==> '0' <= text[i] <= '9' || text[i] == '_')
    && (forall i :: 0 <= i < |text| - 1 ==> text[i] != '_' || text[i + 1] != '_')
  }

  function BodyValue(text: string): int {
    if text == [] then 0
    else if text[|text| - 1] == '_' then BodyValue(text[..|text| - 1])
    else 10 * BodyValue(text[..|text| - 1]) + (text[|text| - 1] as int - '0' as int)
  }

  /** `int(token)`; none where it raises. */
  function PythonInt(token: string): Option<int> {
    var text := StripRight(StripLeft(token));
    var signed := text != [] && (text[0] == '-' || text[0] == '+');
    var body := if signed then text[1..] else text;
    if !IntegerBody(body) then None
    else if signed && text[0] == '-' then Some(-BodyValue(body))
    else Some(BodyValue(body))
  }

  /** Where a token leads from a node: a key, or a place in a list, counted from its end if negative. */
  datatype Hop = AtKey(key: string) | AtIndex(index: nat)

  function HopOf(node: Json, token: string): (r: Option<Hop>)
    ensures r.Some? && r.value.AtIndex? ==> node.Arr? && r.value.index < |node.items|
    ensures r.Some? && r.value.AtKey? ==> node.Obj?
  {
    match node
    case Arr(items) =>
      (match PythonInt(token)
       case None => None
       case Some(i) =>
         if 0 <= i < |items| then Some(AtIndex(i))
         else if -|items| <= i < 0 then Some(AtIndex(|items| + i))
         else None)
    case Obj(fields) => Some(AtKey(token))
    case _ => None
  }

  function Child(node: Json, hop: Hop): Option<Json> {
    match (node, hop)
    case (Arr(items), AtIndex(i)) => if i < |items| then Some(items[i]) else None
    case (Obj(fields), AtKey(key)) => Get(fields, key)
    case _ => None
  }

  /** The node with what is at `hop` replaced, or added if it is a new key. */
  function WithChild(node: Json, hop: Hop, value: Json): Json {
    match (node, hop)
    case (Arr(items), AtIndex(i)) => if i < |items| then Arr(items[i := value]) else node
    case (Obj(fields), AtKey(key)) => Obj(Put(fields, key, value))
    case _ => node
  }

  /** `_pointer_get` on tokens; none where it raises. */
  function GetAt(document: Json, tokens: seq<string>): Option<Json>
    decreases |tokens|
  {
    if tokens == [] then Some(document)
    else
      match HopOf(document, tokens[0])
      case None => None
      case Some(hop) =>
        match Child(document, hop)
        case None => None
        case Some(child) => GetAt(child, tokens[1..])
  }

  /** `_pointer_set` on tokens; none where it raises. */
  function SetAt(document: Json, tokens: seq<string>, value: Json): Option<Json>
    decreases |tokens|
  {
    if tokens == [] then None
    else
      match HopOf(document, tokens[0])
      case None => None
      case Some(hop) =>
        if |tokens| == 1 then Some(WithChild(document, hop, value))
        else
          match Child(document, hop)
          case None => None
          case Some(child) =>
            match SetAt(child, tokens[1..], value)
            case None => None
            case Some(child') => Some(WithChild(document, hop, child'))
  }

  /** The loop of `_pointer_get`. */
  method PointerGet(document: Json, pointer: string) returns (r: Option<Json>)
    ensures r == match Tokens(pointer) case None => None case Some(tokens) => GetAt(document, tokens)
  {
    var tokens := Tokens(pointer);
    if tokens.None? {
      return None;
    }
    var current := document;
    for i := 0 to |tokens.value|
      invariant GetAt(document, tokens.value) == GetAt(current, tokens.value[i..])
    {
      var hop := HopOf(current, tokens.value[i]);
      if hop.None? {
        return None;
      }
      var child := Child(current, hop.value);
      if child.None? {
        return None;
      }
      assert tokens.value[i..][1..] == tokens.value[i + 1..];
      current := child.value;
    }
    return Some(current);
  }

  // The laws

  lemma ChildOfWith(node: Json, hop: Hop, value: Json, other: Hop)
    requires hop.AtIndex? ==> node.Arr? && hop.index < |node.items|
    requires hop.AtKey? ==> node.Obj?
    ensures Child(WithChild(node, hop, value), hop) == Some(value)
    ensures other != hop ==> Child(WithChild(node, hop, value), other) == Child(node, other)
  {
    if hop.AtKey? && node.Obj? {
      if other.AtKey? {
        GetPut(node.fields, hop.key, value, other.key);
      } else {
        GetPut(node.fields, hop.key, value, hop.key);
      }
    }
  }

  /** A write keeps the length of every list, so tokens lead where they led. */
  lemma HopsStay(node: Json, hop: Hop, value: Json, token: string)
    ensures HopOf(WithChild(node, hop, value), token) == HopOf(node, token)
  {
  }

  /** What was written is what is read. */
  lemma {:induction false} GetAfterSet(document: Json, tokens: seq<string>, value: Json)
    requires SetAt(document, tokens, value).Some?
    ensures GetAt(SetAt(document, tokens, value).value, tokens) == Some(value)
    decreases |tokens|
  {
    hide WithChild, Child, HopOf;
    var hop := HopOf(document, tokens[0]).value;
    var written := if |tokens| == 1 then value else SetAt(Child(document, hop).value, tokens[1..], value).value;
    ChildOfWith(document, hop, written, hop);
    HopsStay(document, hop, written, tokens[0]);
    if |tokens| > 1 {
      GetAfterSet(Child(document, hop).value, tokens[1..], value);
    }
  }

  /** The two paths part: at some common node they lead different ways. */
  predicate Apart(document: Json, p: seq<string>, q: seq<string>)
    decreases |p|
  {
    p != [] && q != [] &&
    (HopOf(document, p[0]) != HopOf(document, q[0]) ||
     (HopOf(document, p[0]).Some? && Child(document, HopOf(document, p[0]).value).Some?
      && Apart(Child(document, HopOf(document, p[0]).value).value, p[1..], q[1..])))
  }

  /** Writing at one path leaves every path that parts from it alone. */
  lemma {:induction false} ApartIsUntouched(document: Json, p: seq<string>, q: seq<string>, value: Json)
    requires SetAt(document, p, value).Some? && Apart(document, p, q)
    ensures GetAt(SetAt(document, p, value).value, q) == GetAt(document, q)
    decreases |p|
  {
    hide WithChild, Child, HopOf;
    var hop := HopOf(document, p[0]).value;
    var written := if |p| == 1 then value else SetAt(Child(document, hop).value, p[1..], value).value;
    ChildOfWith(document, hop, written, hop);
    HopsStay(document, hop, written, q[0]);
    if HopOf(document, q[0]) == HopOf(document, p[0]) {
      ApartIsUntouched(Child(document, hop).value, p[1..], q[1..], value);
    } else if HopOf(document, q[0]).Some? {
      ChildOfWith(document, hop, written, HopOf(document, q[0]).value);
    }
  }

  /** Whether a write succeeds does not depend on the value written. */
  lemma {:induction false} SettableForAll(document: Json, p: seq<string>, v: Json, w: Json)
    ensures SetAt(document, p, v).Some? <==> SetAt(document, p, w).Some?
    decreases |p|
  {
    if |p| > 1 && HopOf(document, p[0]).Some? && Child(document, HopOf(document, p[0]).value).Some? {
      SettableForAll(Child(document, HopOf(document, p[0]).value).value, p[1..], v, w);
    }
  }

  /** An object nested so that `tokens` leads to its end. */
  function Nest(tokens: seq<string>): Json {
    if tokens == [] then Null else Obj([Field(tokens[0], Nest(tokens[1..]))])
  }

  lemma {:induction false} NestLeads(tokens: seq<string>)
    ensures GetAt(Nest(tokens), tokens) == Some(Null)
  {
    if tokens != [] {
      NestLeads(tokens[1..]);
    }
  }

  /** A path that does not part from the written one shows some write. */
  lemma {:induction false} NestedIsTouched(document: Json, p: seq<string>, q: seq<string>) returns (value: Json)
    requires SetAt(document, p, Null).Some? && !Apart(document, p, q)
    ensures SetAt(document, p, value).Some? && GetAt(SetAt(document, p, value).value, q) != GetAt(document, q)
    decreases |p|
  {
    if q == [] {
      value := if GetAt(document, p) == Some(Null) then Bool(true) else Null;
      SettableForAll(document, p, Null, value);
      GetAfterSet(document, p, value);
      return;
    }
    var hop := HopOf(document, p[0]).value;
    if |p| == 1 {
      var rest := q[1..];
      var was := GetAt(document, q);
      value := if was.Some? then (if rest == [] && was.value == Null then Bool(true) else Null) else Nest(rest);
      NestLeads(rest);
      ChildOfWith(document, hop, value, hop);
      HopsStay(document, hop, value, q[0]);
      assert GetAt(SetAt(document, p, value).value, q) == GetAt(value, rest);
    } else {
      var child := Child(document, hop).value;
      value := NestedIsTouched(child, p[1..], q[1..]);
      var child' := SetAt(child, p[1..], value).value;
      ChildOfWith(document, hop, child', hop);
      HopsStay(document, hop, child', q[0]);
    }
  }

  /** A path is safe from every write at another exactly when the two part. */
  lemma UntouchedExactlyApart(document: Json, p: seq<string>, q: seq<string>)
    requires SetAt(document, p, Null).Some?
    ensures (forall v :: SetAt(document, p, v).Some? ==> GetAt(SetAt(document, p, v).value, q) == GetAt(document, q))
            <==> Apart(document, p, q)
  {
    if Apart(document, p, q) {
      forall v | SetAt(document, p, v).Some?
        ensures GetAt(SetAt(document, p, v).value, q) == GetAt(document, q)
      {
        ApartIsUntouched(document, p, q, v);
      }
    } else {
      var v := NestedIsTouched(document, p, q);
    }
  }

  lemma OneAndMinusOne()
    ensures PythonInt("1") == Some(1) && PythonInt("-1") == Some(-1)
  {
    assert "-1"[1..] == "1" && "1"[..0] == "";
  }

  /** Different tokens are not enough: "1" and "-1" are one place in a list of two. */
  lemma DifferentTokensMayMeet()
    ensures var document := Arr([Num(0), Num(1)]);
            && SetAt(document, ["-1"], Null) == Some(Arr([Num(0), Null]))
            && GetAt(document, ["1"]) == Some(Num(1))
            && GetAt(Arr([Num(0), Null]), ["1"]) == Some(Null)
            && !Apart(document, ["-1"], ["1"])
  {
    var document := Arr([Num(0), Num(1)]);
    hide PythonInt;
    OneAndMinusOne();
    assert HopOf(document, "1") == HopOf(document, "-1") == Some(AtIndex(1));
    assert HopOf(Arr([Num(0), Null]), "1") == Some(AtIndex(1));
    hide HopOf;
    assert [Num(0), Num(1)][1 := Null] == [Num(0), Null];
    assert WithChild(document, AtIndex(1), Null) == Arr([Num(0), Null]);
    assert ["1"][1..] == [] && ["-1"][1..] == [];
    assert !Apart(document, ["-1"], ["1"]);
  }
}

/** The portable patterns of src/aar/schema_profile.py: their syntax trees, their printing and their parser. */
module RegexProfile {
  import opened JsonValues

  const MAX_PATTERN_LENGTH := 256
  const MAX_REPEAT := 64

  datatype Quantifier = Optional | Exactly(count: string) | Between(low: string, high: string)

  datatype ClassItem = One(c: char) | Range(from: char, to: char)

  datatype Atom = Literal(c: char) | Escaped(c: char) | Class(items: seq<ClassItem>)

  datatype Piece = Piece(atom: Atom, quantifier: Option<Quantifier>)

  datatype Pattern = Pattern(anchored: bool, pieces: seq<Piece>)

  // Characters

  predicate Printable(c: char) {
    ' ' <= c <= '~'
  }

  /** The characters with a meaning of their own, apart from the backslash. */
  predicate Meta(c: char) {
    c == '.' || c == '^' || c == '$' || c == '*' || c == '+' || c == '?' || c == '{' || c == '}' ||
    c == '[' || c == ']' || c == '(' || c == ')' || c == '|'
  }

  predicate ClassChar(c: char) {
    Printable(c) && c != '\\' && c != '[' && c != ']' && c != '^'
  }

  predicate ClassChars(text: string) {
    forall i :: 0 <= i < |text| ==> ClassChar(text[i])
  }

  predicate Ascii(text: string) {
    forall i :: 0 <= i < |text| ==> text[i] < 128 as char
  }

  /** Not a quantifier, and not the anchor. */
  predicate StartsAtom(c: char) {
    c != '?' && c != '{' && c != '^'
  }

  predicate Digits(text: string) {
    1 <= |text| <= 2 && forall i :: 0 <= i < |text| ==> '0' <= text[i] <= '9'
  }

  function Value(text: string): nat
    requires Digits(text)
  {
    var last := text[|text| - 1] as int - '0' as int;
    if |text| == 1 then last else 10 * (text[0] as int - '0' as int) + last
  }

  // Well-formed trees and their printing

  predicate ValidQuantifier(q: Quantifier) {
    match q
    case Optional => true
    case Exactly(count) => Digits(count) && Value(count) <= MAX_REPEAT
    case Between(low, high) => Digits(low) && Digits(high) && Value(low) <= Value(high) <= MAX_REPEAT
  }

  predicate ValidItem(item: ClassItem) {
    match item
    case One(c) => ClassChar(c) && c != '-'
    case Range(from, to) => ClassChar(from) && ClassChar(to) && from != '-' && to != '-' && from <= to
  }

  predicate ValidAtom(atom: Atom) {
    match atom
    case Literal(c) => Printable(c) && !Meta(c) && c != '\\'
    case Escaped(c) => Meta(c) || c == '\\'
    case Class(items) => items != [] && forall item :: item in items ==> ValidItem(item)
  }

  predicate ValidPiece(piece: Piece) {
    ValidAtom(piece.atom) && (piece.quantifier.Some? ==> ValidQuantifier(piece.quantifier.value))
  }

  function Quantified(pieces: seq<Piece>): nat {
    if pieces == [] then 0 else (if pieces[0].quantifier.Some? then 1 else 0) + Quantified(pieces[1..])
  }

  predicate WellFormed(p: Pattern) {
    && p.pieces != []
    && (forall piece :: piece in p.pieces ==> ValidPiece(piece))
    && Quantified(p.pieces) <= 1
  }

  function PrintQuantifier(q: Quantifier): string {
    match q
    case Optional => "?"
    case Exactly(count) => "{" + count + "}"
    case Between(low, high) => "{" + low + "," + high + "}"
  }

  function PrintItem(item: ClassItem): string {
    match item
    case One(c) => [c]
    case Range(from, to) => [from, '-', to]
  }

  function PrintItems(items: seq<ClassItem>): string {
    if items == [] then "" else PrintItem(items[0]) + PrintItems(items[1..])
  }

  function PrintAtom(atom: Atom): string {
    match atom
    case Literal(c) => [c]
    case Escaped(c) => ['\\', c]
    case Class(items) => "[" + PrintItems(items) + "]"
  }

  function PrintPiece(piece: Piece): string {
    PrintAtom(piece.atom) + (if piece.quantifier.Some? then PrintQuantifier(piece.quantifier.value) else "")
  }

  function PrintPieces(pieces: seq<Piece>): string {
    if pieces == [] then "" else PrintPiece(pieces[0]) + PrintPieces(pieces[1..])
  }

  function Print(p: Pattern): string {
    (if p.anchored then "^" else "") + PrintPieces(p.pieces)
  }

  // The parser, on what is left of the pattern: a tree and how many characters it took

  /** `text.find(c)`, from the start. */
  function Find(text: string, c: char): Option<nat> {
    if text == [] then None
    else if text[0] == c then Some(0)
    else
      match Find(text[1..], c)
      case None => None
      case Some(i) => Some(i + 1)
  }

  lemma {:induction false} FindFinds(text: string, c: char)
    ensures Find(text, c).Some? ==> Find(text, c).value < |text| && text[Find(text, c).value] == c
  {
    if text != [] && text[0] != c {
      FindFinds(text[1..], c);
    }
  }

  function ParseItems(text: string): Option<seq<ClassItem>> {
    if text == [] then Some([])
    else if text[0] == '-' then None
    else if |text| > 1 && text[1] == '-' then
      if |text| == 2 || text[2] == '-' || text[0] > text[2] then None
      else
        match ParseItems(text[3..])
        case None => None
        case Some(items) => Some([Range(text[0], text[2])] + items)
    else
      match ParseItems(text[1..])
      case None => None
      case Some(items) => Some([One(text[0])] + items)
  }

  function ParseClass(content: string): Option<Atom> {
    if content == [] || !ClassChars(content) then None
    else
      match ParseItems(content)
      case None => None
      case Some(items) => Some(Class(items))
  }

  function ParseAtom(text: string): (r: Option<(Atom, nat)>)
    requires text != []
    ensures r.Some? ==> 0 < r.value.1 <= |text|
  {
    if text[0] == '\\' then
      if |text| > 1 && (Meta(text[1]) || text[1] == '\\') then Some((Escaped(text[1]), 2)) else None
    else if text[0] == '[' then
      FindFinds(text[1..], ']');
      match Find(text[1..], ']')
      case None => None
      case Some(length) =>
        (match ParseClass(text[1..1 + length])
         case None => None
         case Some(atom) => Some((atom, length + 2)))
    else if Meta(text[0]) || !Printable(text[0]) then None
    else Some((Literal(text[0]), 1))
  }

  /** `([0-9]{1,2})(?:,([0-9]{1,2}))?` and the bounds. */
  function ParseRepeat(repeat: string): Option<Quantifier> {
    FindFinds(repeat, ',');
    match Find(repeat, ',')
    case None => if Digits(repeat) && Value(repeat) <= MAX_REPEAT then Some(Exactly(repeat)) else None
    case Some(i) =>
      var low, high := repeat[..i], repeat[i + 1..];
      if Digits(low) && Digits(high) && Value(low) <= Value(high) <= MAX_REPEAT then Some(Between(low, high)) else None
  }

  function ParseQuantifier(text: string): (r: Option<(Option<Quantifier>, nat)>)
    ensures r.Some? ==> r.value.1 <= |text|
  {
    if text == [] then Some((None, 0))
    else if text[0] == '?' then Some((Some(Optional), 1))
    else if text[0] != '{' then Some((None, 0))
    else
      FindFinds(text[1..], '}');
      match Find(text[1..], '}')
      case None => None
      case Some(length) =>
        (match ParseRepeat(text[1..1 + length])
         case None => None
         case Some(q) => Some((Some(q), length + 2)))
  }

  /** The pieces of `text`, when `used` quantifiers went before it. */
  function ParsePieces(text: string, used: nat): Option<seq<Piece>>
    decreases |text|
  {
    if text == [] then Some([])
    else
      match ParseAtom(text)
      case None => None
      case Some((atom, n)) =>
        match ParseQuantifier(text[n..])
        case None => None
        case Some((q, m)) =>
          var used' := used + if q.Some? then 1 else 0;
          if used' > 1 then None
          else
            match ParsePieces(text[n + m..], used')
            case None => None
            case Some(pieces) => Some([Piece(atom, q)] + pieces)
  }

  function Parse(text: string): Option<Pattern> {
    var anchored := text != [] && text[0] == '^';
    var rest := if anchored then text[1..] else text;
    if |text| > MAX_PATTERN_LENGTH || !Ascii(text) || rest == [] then None
    else
      match ParsePieces(rest, 0)
      case None => None
      case Some(pieces) => Some(Pattern(anchored, pieces))
  }

  // What is parsed is well formed and prints back

  lemma {:induction false} ItemsSound(text: string)
    requires ParseItems(text).Some? && ClassChars(text)
    ensures PrintItems(ParseItems(text).value) == text
    ensures forall item :: item in ParseItems(text).value ==> ValidItem(item)
  {
    if text != [] {
      if |text| > 1 && text[1] == '-' {
        ItemsSound(text[3..]);
        assert text == [text[0], '-', text[2]] + text[3..];
      } else {
        ItemsSound(text[1..]);
        assert text == [text[0]] + text[1..];
      }
    }
  }

  lemma Enclosed(text: string, length: nat)
    requires length + 1 < |text|
    ensures text[..length + 2] == [text[0]] + text[1..1 + length] + [text[length + 1]]
  {
  }

  lemma AtomSound(text: string)
    requires text != [] && ParseAtom(text).Some?
    ensures ValidAtom(ParseAtom(text).value.0)
    ensures PrintAtom(ParseAtom(text).value.0) == text[..ParseAtom(text).value.1]
  {
    if text[0] == '[' {
      FindFinds(text[1..], ']');
      var length := Find(text[1..], ']').value;
      var content := text[1..1 + length];
      ItemsSound(content);
      var items := ParseItems(content).value;
      assert items != [];
      hide ParseItems, ClassChars, ValidItem;
      Enclosed(text, length);
    }
  }

  lemma RepeatSound(repeat: string)
    requires ParseRepeat(repeat).Some?
    ensures ValidQuantifier(ParseRepeat(repeat).value)
    ensures PrintQuantifier(ParseRepeat(repeat).value) == "{" + repeat + "}"
  {
    FindFinds(repeat, ',');
    hide Digits, Find, Value;
  }

  lemma QuantifierSound(text: string)
    requires ParseQuantifier(text).Some?
    ensures var (q, m) := ParseQuantifier(text).value;
            && (q.Some? ==> ValidQuantifier(q.value))
            && text[..m] == if q.Some? then PrintQuantifier(q.value) else ""
  {
    hide ParseRepeat, Digits;
    if text != [] && text[0] == '{' {
      FindFinds(text[1..], '}');
      var length := Find(text[1..], '}').value;
      RepeatSound(text[1..1 + length]);
      Enclosed(text, length);
    }
  }

  lemma {:induction false} PiecesSound(text: string, used: nat)
    requires ParsePieces(text, used).Some? && used <= 1
    ensures var pieces := ParsePieces(text, used).value;
            && PrintPieces(pieces) == text
            && (forall piece :: piece in pieces ==> ValidPiece(piece))
            && used + Quantified(pieces) <= 1
    decreases |text|
  {
    hide PrintAtom, PrintQuantifier, ValidAtom, ValidQuantifier, ParseAtom, ParseQuantifier;
    if text != [] {
      var (atom, n) := ParseAtom(text).value;
      var (q, m) := ParseQuantifier(text[n..]).value;
      var used' := used + if q.Some? then 1 else 0;
      AtomSound(text);
      QuantifierSound(text[n..]);
      PiecesSound(text[n + m..], used');
      assert text == text[..n] + text[n..][..m] + text[n + m..];
    }
  }

  // What is well formed parses back

  predicate Lacks(text: string, c: char) {
    forall i :: 0 <= i < |text| ==> text[i] != c
  }

  lemma {:induction false} FindHere(before: string, c: char, after: string)
    requires Lacks(before, c)
    ensures Find(before + [c] + after, c) == Some(|before|)
  {
    var text := before + [c] + after;
    if before != [] {
      FindHere(before[1..], c, after);
      assert text[1..] == before[1..] + [c] + after;
    }
  }

  lemma {:induction false} FindNowhere(text: string, c: char)
    requires Lacks(text, c)
    ensures Find(text, c) == None
  {
    if text != [] {
      FindNowhere(text[1..], c);
    }
  }

  lemma {:induction false} ItemsComplete(items: seq<ClassItem>)
    requires forall item :: item in items ==> ValidItem(item)
    ensures ParseItems(PrintItems(items)) == Some(items)
    ensures ClassChars(PrintItems(items))
    ensures items != [] ==> PrintItems(items) != [] && PrintItems(items)[0] != '-'
  {
    if items != [] {
      ItemsComplete(items[1..]);
      var rest := PrintItems(items[1..]);
      var text := PrintItems(items);
      assert ValidItem(items[0]);
      assert items == [items[0]] + items[1..];
      match items[0] {
        case One(c) =>
          assert text == [c] + rest && text[1..] == rest;
        case Range(from, to) =>
          assert text == [from, '-', to] + rest && text[3..] == rest;
          assert text[0] == from && text[1] == '-' && text[2] == to;
      }
    }
  }

  lemma AtomComplete(atom: Atom, after: string)
    requires ValidAtom(atom)
    ensures ParseAtom(PrintAtom(atom) + after) == Some((atom, |PrintAtom(atom)|))
    ensures PrintAtom(atom) != [] && StartsAtom(PrintAtom(atom)[0])
  {
    match atom
    case Literal(c) =>
    case Escaped(c) =>
      assert PrintAtom(atom)[0] == '\\';
    case Class(items) =>
      hide ValidItem, ParseItems, PrintItems, Find;
      ItemsComplete(items);
      BracketsEnclose(PrintItems(items), after);
      FindHere(PrintItems(items), ']', after);
  }

  lemma BracketsEnclose(content: string, after: string)
    ensures var text := "[" + content + "]" + after;
            text[0] == '[' && text[1..] == content + [']'] + after && text[1..1 + |content|] == content
  {
    var text := "[" + content + "]" + after;
    assert text[1..] == content + [']'] + after;
  }

  lemma RepeatComplete(repeat: string, after: string)
    requires Lacks(repeat, '}') && ParseRepeat(repeat).Some?
    ensures ParseQuantifier("{" + repeat + "}" + after) == Some((Some(ParseRepeat(repeat).value), |repeat| + 2))
  {
    hide ParseRepeat, Digits;
    var text := "{" + repeat + "}" + after;
    assert text[1..] == repeat + ['}'] + after;
    FindHere(repeat, '}', after);
    assert text[1..1 + |repeat|] == repeat;
  }

  lemma CountParses(count: string)
    requires ValidQuantifier(Exactly(count))
    ensures Lacks(count, '}') && ParseRepeat(count) == Some(Exactly(count))
  {
    FindNowhere(count, ',');
  }

  lemma BoundsParse(low: string, high: string)
    requires ValidQuantifier(Between(low, high))
    ensures Lacks(low + [','] + high, '}') && ParseRepeat(low + [','] + high) == Some(Between(low, high))
  {
    FindHere(low, ',', high);
    var repeat := low + [','] + high;
    assert repeat[..|low|] == low && repeat[|low| + 1..] == high;
  }

  lemma QuantifierComplete(q: Quantifier, after: string)
    requires ValidQuantifier(q)
    ensures ParseQuantifier(PrintQuantifier(q) + after) == Some((Some(q), |PrintQuantifier(q)|))
  {
    hide ParseRepeat, ValidQuantifier, Lacks;
    match q
    case Optional =>
      assert (PrintQuantifier(q) + after)[0] == '?';
    case Exactly(count) =>
      CountParses(count);
      hide ParseQuantifier;
      RepeatComplete(count, after);
    case Between(low, high) =>
      BoundsParse(low, high);
      hide ParseQuantifier;
      RepeatComplete(low + [','] + high, after);
      assert PrintQuantifier(q) == "{" + (low + [','] + high) + "}";
  }

  lemma NoQuantifier(after: string)
    requires after == [] || StartsAtom(after[0])
    ensures ParseQuantifier(after) == Some((None, 0))
  {
  }

  lemma ParseStep(text: string, used: nat, atom: Atom, n: nat, q: Option<Quantifier>, m: nat, pieces: seq<Piece>)
    requires text != [] && ParseAtom(text) == Some((atom, n)) && ParseQuantifier(text[n..]) == Some((q, m))
    requires used + (if q.Some? then 1 else 0) <= 1
    requires ParsePieces(text[n + m..], used + if q.Some? then 1 else 0) == Some(pieces)
    ensures ParsePieces(text, used) == Some([Piece(atom, q)] + pieces)
  {
    hide ParseAtom, ParseQuantifier;
  }

  lemma PieceParses(piece: Piece, used: nat, rest: string, pieces: seq<Piece>)
    requires ValidPiece(piece) && (rest == [] || StartsAtom(rest[0]))
    requires used + (if piece.quantifier.Some? then 1 else 0) <= 1
    requires ParsePieces(rest, used + if piece.quantifier.Some? then 1 else 0) == Some(pieces)
    ensures ParsePieces(PrintPiece(piece) + rest, used) == Some([piece] + pieces)
    ensures PrintPiece(piece) != [] && StartsAtom(PrintPiece(piece)[0])
  {
    hide PrintAtom, PrintQuantifier, ValidAtom, ValidQuantifier, ParseAtom, ParseQuantifier, StartsAtom, ParsePieces;
    var quantifier := if piece.quantifier.Some? then PrintQuantifier(piece.quantifier.value) else "";
    var atom := PrintAtom(piece.atom);
    Concatenation(atom, quantifier, rest);
    AtomComplete(piece.atom, quantifier + rest);
    if piece.quantifier.Some? {
      QuantifierComplete(piece.quantifier.value, rest);
    } else {
      assert quantifier + rest == rest;
      NoQuantifier(rest);
    }
    ParseStep(atom + (quantifier + rest), used, piece.atom, |atom|, piece.quantifier, |quantifier|, pieces);
  }

  lemma {:induction false} PiecesComplete(pieces: seq<Piece>, used: nat)
    requires forall piece :: piece in pieces ==> ValidPiece(piece)
    requires used + Quantified(pieces) <= 1
    ensures ParsePieces(PrintPieces(pieces), used) == Some(pieces)
    ensures pieces != [] ==> PrintPieces(pieces) != [] && StartsAtom(PrintPieces(pieces)[0])
  {
    hide *;
    NoPieces(used);
    if pieces != [] {
      FirstPiece(pieces);
      PiecesComplete(pieces[1..], used + if pieces[0].quantifier.Some? then 1 else 0);
      PieceParses(pieces[0], used, PrintPieces(pieces[1..]), pieces[1..]);
    }
  }

  lemma NoPieces(used: nat)
    ensures PrintPieces([]) == [] && ParsePieces([], used) == Some([])
  {
  }

  lemma FirstPiece(pieces: seq<Piece>)
    requires pieces != []
    ensures PrintPieces(pieces) == PrintPiece(pieces[0]) + PrintPieces(pieces[1..])
    ensures Quantified(pieces) == (if pieces[0].quantifier.Some? then 1 else 0) + Quantified(pieces[1..])
    ensures pieces == [pieces[0]] + pieces[1..] && pieces[0] in pieces
  {
  }

  lemma Concatenation(a: string, b: string, c: string)
    ensures a + b + c == a + (b + c)
    ensures (a + (b + c))[|a|..] == b + c
    ensures (a + (b + c))[|a| + |b|..] == c
    ensures a != [] ==> (a + (b + c))[0] == a[0]
  {
  }

  lemma AtomIsAscii(atom: Atom)
    requires ValidAtom(atom)
    ensures Ascii(PrintAtom(atom))
  {
    if atom.Class? {
      ItemsComplete(atom.items);
    }
  }

  lemma QuantifierIsAscii(q: Quantifier)
    requires ValidQuantifier(q)
    ensures Ascii(PrintQuantifier(q))
  {
  }

  lemma {:induction false} PrintedIsAscii(pieces: seq<Piece>)
    requires forall piece :: piece in pieces ==> ValidPiece(piece)
    ensures Ascii(PrintPieces(pieces))
  {
    hide PrintAtom, PrintQuantifier, ValidAtom, ValidQuantifier;
    if pieces != [] {
      assert ValidPiece(pieces[0]);
      AtomIsAscii(pieces[0].atom);
      if pieces[0].quantifier.Some? {
        QuantifierIsAscii(pieces[0].quantifier.value);
      }
      PrintedIsAscii(pieces[1..]);
    }
  }

  // The grammar, both ways

  lemma ParseSound(text: string)
    requires Parse(text).Some?
    ensures WellFormed(Parse(text).value) && Print(Parse(text).value) == text
  {
    var rest := if text[0] == '^' then text[1..] else text;
    PiecesSound(rest, 0);
    assert text[0] == '^' ==> text == "^" + rest;
  }

  lemma ParseComplete(p: Pattern)
    requires WellFormed(p) && |Print(p)| <= MAX_PATTERN_LENGTH
    ensures Parse(Print(p)) == Some(p)
  {
    PiecesComplete(p.pieces, 0);
    PrintedIsAscii(p.pieces);
    hide ParsePieces, ValidPiece, PrintPieces, Quantified, Ascii, Parse;
    var rest := PrintPieces(p.pieces);
    if p.anchored {
      ParseUnfolds("^" + rest, true, rest, p.pieces);
    } else {
      assert "" + rest == rest;
      ParseUnfolds(rest, false, rest, p.pieces);
    }
  }

  lemma ParseUnfolds(text: string, anchored: bool, rest: string, pieces: seq<Piece>)
    requires rest != [] && |text| <= MAX_PATTERN_LENGTH && Ascii(text)
    requires if anchored then text != [] && text[0] == '^' && text[1..] == rest else text == rest && text[0] != '^'
    requires ParsePieces(rest, 0) == Some(pieces)
    ensures Parse(text) == Some(Pattern(anchored, pieces))
  {
    hide ParsePieces;
  }

  /** The text is short enough and prints a well-formed pattern. */
  ghost predicate Portable(text: string) {
    |text| <= MAX_PATTERN_LENGTH && exists p :: WellFormed(p) && Print(p) == text
  }

  lemma ParsedIsPortable(text: string)
    ensures Parse(text).Some? <==> Portable(text)
  {
    if Parse(text).Some? {
      ParseSound(text);
    }
    if Portable(text) {
      var p :| WellFormed(p) && Print(p) == text;
      ParseComplete(p);
    }
  }

  /** No text has two readings. */
  lemma PrintingIsInjective(p: Pattern, q: Pattern)
    requires WellFormed(p) && WellFormed(q) && Print(p) == Print(q)
    ensures p == q
  {
    PiecesComplete(p.pieces, 0);
    PiecesComplete(q.pieces, 0);
    assert p.anchored <==> Print(p)[0] == '^';
    assert q.anchored <==> Print(q)[0] == '^';
    assert PrintPieces(p.pieces) == Print(p)[if p.anchored then 1 else 0..];
    assert PrintPieces(q.pieces) == Print(q)[if q.anchored then 1 else 0..];
  }

  // The cursor loops

  /** `_validate_positive_class`. */
  method ValidatePositiveClass(content: string) returns (ok: bool)
    ensures ok <==> ParseClass(content).Some?
  {
    if content == [] || content[0] == '^' {
      return false;
    }
    if !ClassChars(content) {
      return false;
    }
    var cursor := 0;
    while cursor < |content|
      invariant 0 <= cursor <= |content|
      invariant ParseItems(content).Some? <==> ParseItems(content[cursor..]).Some?
    {
      var rest := content[cursor..];
      if content[cursor] == '-' {
        return false;
      }
      if cursor + 1 < |content| && content[cursor + 1] == '-' {
        if cursor + 2 >= |content| {
          return false;
        }
        if content[cursor + 2] == '-' || content[cursor] > content[cursor + 2] {
          return false;
        }
        assert rest[3..] == content[cursor + 3..];
        cursor := cursor + 3;
      } else {
        assert rest[1..] == content[cursor + 1..];
        cursor := cursor + 1;
      }
    }
    return true;
  }

  /** `_consume_atom`: the cursor past the atom, or none. */
  method ConsumeAtom(pattern: string, cursor: nat) returns (next: Option<nat>)
    requires cursor < |pattern|
    ensures next == match ParseAtom(pattern[cursor..])
                    case None => None
                    case Some((_, n)) => Some(cursor + n)
  {
    var text := pattern[cursor..];
    var character := pattern[cursor];
    if character == '\\' {
      if cursor + 1 >= |pattern| || !(Meta(pattern[cursor + 1]) || pattern[cursor + 1] == '\\') {
        return None;
      }
      return Some(cursor + 2);
    }
    if character == '[' {
      assert text[1..] == pattern[cursor + 1..];
      FindFinds(pattern[cursor + 1..], ']');
      var length := Find(pattern[cursor + 1..], ']');
      if length.None? {
        return None;
      }
      assert text[1..1 + length.value] == pattern[cursor + 1..cursor + 1 + length.value];
      var ok := ValidatePositiveClass(pattern[cursor + 1..cursor + 1 + length.value]);
      return if ok then Some(cursor + length.value + 2) else None;
    }
    if Meta(character) || !Printable(character) {
      return None;
    }
    return Some(cursor + 1);
  }

  lemma PiecesUnfold(text: string, used: nat)
    ensures text == [] ==> ParsePieces(text, used).Some?
    ensures text != [] && ParseAtom(text).None? ==> ParsePieces(text, used).None?
    ensures text != [] && ParseAtom(text).Some? ==>
              var n := ParseAtom(text).value.1;
              match ParseQuantifier(text[n..])
              case None => ParsePieces(text, used).None?
              case Some((q, m)) =>
                var used' := used + if q.Some? then 1 else 0;
                ParsePieces(text, used).Some? <==> used' <= 1 && ParsePieces(text[n + m..], used').Some?
  {
    hide ParseAtom, ParseQuantifier;
  }

  /** `validate_portable_pattern`, as far as its own parser goes. */
  method ValidatePortablePattern(pattern: string) returns (ok: bool)
    ensures ok <==> Parse(pattern).Some?
    ensures ok <==> Portable(pattern)
  {
    hide ParseAtom, ParseQuantifier, Portable, ParsePieces, Ascii;
    ParsedIsPortable(pattern);
    PiecesUnfold([], 0);
    PiecesUnfold([], 1);
    if |pattern| > MAX_PATTERN_LENGTH || !Ascii(pattern) {
      return false;
    }
    var cursor := if pattern != [] && pattern[0] == '^' then 1 else 0;
    var end := |pattern|;
    if cursor >= end {
      return false;
    }
    var quantifiedAtoms := 0;
    ghost var whole := ParsePieces(pattern[cursor..], 0);
    while cursor < end
      invariant 0 <= cursor <= end && 0 <= quantifiedAtoms <= 1
      invariant whole.Some? <==> ParsePieces(pattern[cursor..], quantifiedAtoms).Some?
      decreases end - cursor
    {
      PiecesUnfold(pattern[cursor..], quantifiedAtoms);
      var atomEnd := ConsumeAtom(pattern, cursor);
      if atomEnd.None? {
        return false;
      }
      ghost var n := ParseAtom(pattern[cursor..]).value.1;
      assert pattern[cursor..][n..] == pattern[atomEnd.value..];
      var quantifier := ParseQuantifier(pattern[atomEnd.value..]);
      if quantifier.None? {
        return false;
      }
      var (q, m) := quantifier.value;
      assert pattern[cursor..][n + m..] == pattern[atomEnd.value + m..];
      quantifiedAtoms := quantifiedAtoms + if q.Some? then 1 else 0;
      if quantifiedAtoms > 1 {
        return false;
      }
      cursor := atomEnd.value + m;
    }
    assert pattern[cursor..] == [];
    return true;
  }
}

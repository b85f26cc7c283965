/** The portable patterns spelled out: their characters, escapes, classes and repeats, and what each accepts. */
module RegexAlphabet {
  import opened JsonValues
  import opened RegexProfile
  import opened RegexMatching

  const SPECIAL: string := ".^$*+?{}[]()|"

  /** A printable ASCII character. */
  predicate Typed(c: char) {
    0x20 <= c as int <= 0x7e
  }

  /** One or two decimal digits, and the number they write. */
  predicate Writes(text: string, n: nat) {
    || (n < 10 && text == [('0' as int + n) as char])
    || (n < 100 && text == [('0' as int + n / 10) as char, ('0' as int + n % 10) as char])
  }

  predicate AtomInOrder(atom: Atom) {
    match atom
    case Literal(c) => Typed(c) && c !in SPECIAL && c != '\\'
    case Escaped(c) => c in SPECIAL || c == '\\'
    case Class(items) =>
      && items != []
      && forall item :: item in items ==>
           match item
           case One(c) => Typed(c) && c !in "\\[]^-"
           case Range(from, to) => Typed(from) && Typed(to) && from !in "\\[]^-" && to !in "\\[]^-" && from <= to
  }

  ghost predicate QuantifierInOrder(q: Quantifier) {
    match q
    case Optional => true
    case Exactly(count) => exists n: nat :: n <= 64 && Writes(count, n)
    case Between(low, high) => exists m: nat, n: nat :: m <= n <= 64 && Writes(low, m) && Writes(high, n)
  }

  lemma SpecialIsMeta(c: char)
    ensures Meta(c) <==> c in SPECIAL
    ensures c in "\\[]^-" <==> c == '\\' || c == '[' || c == ']' || c == '^' || c == '-'
  {
  }

  lemma WritesExactly(text: string, n: nat)
    ensures Writes(text, n) <==> Digits(text) && Value(text) == n
  {
    if Digits(text) && |text| == 2 {
      assert text == [text[0], text[1]];
    }
  }

  lemma AtomExactly(atom: Atom)
    ensures ValidAtom(atom) <==> AtomInOrder(atom)
  {
    forall c ensures Meta(c) <==> c in SPECIAL {
      SpecialIsMeta(c);
    }
    forall c ensures c in "\\[]^-" <==> c == '\\' || c == '[' || c == ']' || c == '^' || c == '-' {
      SpecialIsMeta(c);
    }
  }

  lemma QuantifierExactly(q: Quantifier)
    ensures ValidQuantifier(q) <==> QuantifierInOrder(q)
  {
    hide Writes, Digits, Value;
    match q
    case Optional =>
    case Exactly(count) =>
      forall n ensures Writes(count, n) <==> Digits(count) && Value(count) == n {
        WritesExactly(count, n);
      }
      if ValidQuantifier(q) {
        assert Writes(count, Value(count));
      }
    case Between(low, high) =>
      forall n ensures Writes(low, n) <==> Digits(low) && Value(low) == n {
        WritesExactly(low, n);
      }
      forall n ensures Writes(high, n) <==> Digits(high) && Value(high) == n {
        WritesExactly(high, n);
      }
      if ValidQuantifier(q) {
        assert Writes(low, Value(low)) && Writes(high, Value(high));
      }
  }

  /** At most one piece has a quantifier. */
  predicate OneQuantifier(pieces: seq<Piece>) {
    forall i, j :: 0 <= i < j < |pieces| ==> pieces[i].quantifier.None? || pieces[j].quantifier.None?
  }

  lemma {:induction false} NoQuantifier(pieces: seq<Piece>)
    ensures Quantified(pieces) == 0 <==> forall i :: 0 <= i < |pieces| ==> pieces[i].quantifier.None?
    decreases |pieces|
  {
    if pieces != [] {
      NoQuantifier(pieces[1..]);
      assert forall i :: 1 <= i < |pieces| ==> pieces[i] == pieces[1..][i - 1];
    }
  }

  lemma {:induction false} QuantifiersExactly(pieces: seq<Piece>)
    ensures Quantified(pieces) <= 1 <==> OneQuantifier(pieces)
    decreases |pieces|
  {
    if pieces != [] {
      NoQuantifier(pieces[1..]);
      QuantifiersExactly(pieces[1..]);
      assert forall i :: 1 <= i < |pieces| ==> pieces[i] == pieces[1..][i - 1];
      if OneQuantifier(pieces[1..]) && (pieces[0].quantifier.None? || Quantified(pieces[1..]) == 0) {
        forall i, j | 0 <= i < j < |pieces| ensures pieces[i].quantifier.None? || pieces[j].quantifier.None? {
          assert pieces[j] == pieces[1..][j - 1];
          if i > 0 {
            assert pieces[i] == pieces[1..][i - 1];
          }
        }
      }
      if OneQuantifier(pieces) {
        assert forall i :: 0 <= i < |pieces| - 1 ==> pieces[1..][i] == pieces[i + 1];
      }
    }
  }

  /** A pattern is well formed exactly when it has an atom, each atom and quantifier is in order, and at most one atom
      is quantified. */
  lemma WellFormedExactly(p: Pattern)
    ensures WellFormed(p) <==>
            && p.pieces != [] && OneQuantifier(p.pieces)
            && forall piece :: piece in p.pieces ==>
                 AtomInOrder(piece.atom) && (piece.quantifier.Some? ==> QuantifierInOrder(piece.quantifier.value))
  {
    hide AtomInOrder, QuantifierInOrder, ValidAtom, ValidQuantifier, Quantified, OneQuantifier;
    QuantifiersExactly(p.pieces);
    forall atom ensures ValidAtom(atom) <==> AtomInOrder(atom) {
      AtomExactly(atom);
    }
    forall q ensures ValidQuantifier(q) <==> QuantifierInOrder(q) {
      QuantifierExactly(q);
    }
  }

  // What a piece accepts

  predicate AcceptsChar(atom: Atom, c: char) {
    match atom
    case Literal(x) => c == x
    case Escaped(x) => c == x
    case Class(items) =>
      exists item :: item in items && match item case One(x) => c == x case Range(from, to) => from <= c && c <= to
  }

  ghost predicate RightMany(q: Option<Quantifier>, n: nat) {
    match q
    case None => n == 1
    case Some(Optional) => n == 0 || n == 1
    case Some(Exactly(count)) => Writes(count, n)
    case Some(Between(low, high)) => exists l: nat, h: nat :: Writes(low, l) && Writes(high, h) && l <= n <= h
  }

  /** A piece spells exactly the texts of as many characters as its quantifier asks for, each one its atom accepts. */
  lemma PieceSpells(piece: Piece, text: string)
    requires ValidPiece(piece)
    ensures ValidPieces([piece])
    ensures InLanguage([piece], text) <==>
            RightMany(piece.quantifier, |text|) && forall i :: 0 <= i < |text| ==> AcceptsChar(piece.atom, text[i])
  {
    assert [piece][1..] == [];
    assert forall c :: MatchesChar(piece.atom, c) <==> AcceptsChar(piece.atom, c) by {
      forall c ensures MatchesChar(piece.atom, c) <==> AcceptsChar(piece.atom, c) {
        SameCharacters(piece.atom, c);
      }
    }
    ManyExactly(piece, |text|);
    if InLanguage([piece], text) {
      var k :| Low(piece) <= k <= High(piece) && k <= |text| && AllMatch(piece.atom, text[..k])
               && InLanguage([piece][1..], text[k..]);
      assert text[k..] == [] && k == |text| && text[..k] == text;
    }
    if RightMany(piece.quantifier, |text|) && forall i :: 0 <= i < |text| ==> AcceptsChar(piece.atom, text[i]) {
      assert text[..|text|] == text && text[|text|..] == [];
      assert AllMatch(piece.atom, text[..|text|]) && InLanguage([piece][1..], text[|text|..]);
    }
  }

  lemma SameCharacters(atom: Atom, c: char)
    ensures MatchesChar(atom, c) <==> AcceptsChar(atom, c)
  {
  }

  lemma ManyExactly(piece: Piece, n: nat)
    requires ValidPiece(piece)
    ensures Low(piece) <= n <= High(piece) <==> RightMany(piece.quantifier, n)
  {
    hide Writes, ValidAtom;
    match piece.quantifier
    case Some(Exactly(count)) =>
      WritesExactly(count, n);
    case Some(Between(low, high)) =>
      forall k ensures Writes(low, k) <==> Value(low) == k {
        WritesExactly(low, k);
      }
      forall k ensures Writes(high, k) <==> Value(high) == k {
        WritesExactly(high, k);
      }
      assert Writes(low, Value(low)) && Writes(high, Value(high));
    case _ =>
  }
}

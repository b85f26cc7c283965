/** What a portable pattern denotes, a backtracking matcher that counts its steps, and the linear bound on them. */
module RegexMatching {
  import opened JsonValues
  import opened RegexProfile

  // What a pattern denotes

  predicate MatchesItem(item: ClassItem, c: char) {
    match item
    case One(x) => c == x
    case Range(from, to) => from <= c <= to
  }

  predicate MatchesChar(atom: Atom, c: char) {
    match atom
    case Literal(x) => c == x
    case Escaped(x) => c == x
    case Class(items) => exists item :: item in items && MatchesItem(item, c)
  }

  predicate AllMatch(atom: Atom, text: string) {
    forall i :: 0 <= i < |text| ==> MatchesChar(atom, text[i])
  }

  function Low(piece: Piece): nat
    requires ValidPiece(piece)
  {
    match piece.quantifier
    case None => 1
    case Some(Optional) => 0
    case Some(Exactly(count)) => Value(count)
    case Some(Between(low, _)) => Value(low)
  }

  function High(piece: Piece): nat
    requires ValidPiece(piece)
  {
    match piece.quantifier
    case None => 1
    case Some(Optional) => 1
    case Some(Exactly(count)) => Value(count)
    case Some(Between(_, high)) => Value(high)
  }

  ghost predicate ValidPieces(pieces: seq<Piece>) {
    forall i :: 0 <= i < |pieces| ==> ValidPiece(pieces[i])
  }

  /** The pieces spell out all of `text`. */
  ghost predicate InLanguage(pieces: seq<Piece>, text: string)
    requires ValidPieces(pieces)
  {
    if pieces == [] then text == []
    else exists k :: Low(pieces[0]) <= k <= High(pieces[0]) && k <= |text|
                     && AllMatch(pieces[0].atom, text[..k]) && InLanguage(pieces[1..], text[k..])
  }

  /** They spell out some beginning of `text`. */
  ghost predicate BeginsWith(pieces: seq<Piece>, text: string)
    requires ValidPieces(pieces)
  {
    exists j :: 0 <= j <= |text| && InLanguage(pieces, text[..j])
  }

  /** `re.search`: somewhere in `text`, or at its start if the pattern is anchored. */
  ghost predicate Occurs(p: Pattern, text: string)
    requires ValidPieces(p.pieces)
  {
    exists i :: 0 <= i <= |text| && (p.anchored ==> i == 0) && BeginsWith(p.pieces, text[i..])
  }

  // A backtracking matcher

  datatype Outcome = Outcome(found: bool, steps: nat)

  /** How many characters in a row match, up to `limit`. */
  function Run(atom: Atom, text: string, limit: nat): nat {
    if limit == 0 || text == [] || !MatchesChar(atom, text[0]) then 0 else 1 + Run(atom, text[1..], limit - 1)
  }

  /** Take as many as possible, then give back one at a time. */
  function MatchHere(pieces: seq<Piece>, text: string): Outcome
    requires ValidPieces(pieces)
    decreases |pieces|, 1, 0
  {
    if pieces == [] then Outcome(true, 1)
    else
      RunWithin(pieces[0].atom, text, High(pieces[0]));
      var run := Run(pieces[0].atom, text, High(pieces[0]));
      if run < Low(pieces[0]) then Outcome(false, run + 1)
      else
        var tried := TryFrom(pieces, text, run);
        Outcome(tried.found, run + 1 + tried.steps)
  }

  function TryFrom(pieces: seq<Piece>, text: string, k: nat): Outcome
    requires ValidPieces(pieces) && pieces != [] && k <= |text|
    decreases |pieces|, 0, k
  {
    var rest := MatchHere(pieces[1..], text[k..]);
    if rest.found || k <= Low(pieces[0]) then rest
    else
      var fewer := TryFrom(pieces, text, k - 1);
      Outcome(fewer.found, rest.steps + fewer.steps)
  }

  function Search(p: Pattern, text: string, i: nat): Outcome
    requires ValidPieces(p.pieces) && i <= |text|
    decreases |text| - i
  {
    var here := MatchHere(p.pieces, text[i..]);
    if here.found || p.anchored || i == |text| then here
    else
      var later := Search(p, text, i + 1);
      Outcome(later.found, here.steps + later.steps)
  }

  // It decides the language

  lemma {:induction false} RunWithin(atom: Atom, text: string, limit: nat)
    ensures Run(atom, text, limit) <= |text| && Run(atom, text, limit) <= limit
  {
    if limit != 0 && text != [] && MatchesChar(atom, text[0]) {
      RunWithin(atom, text[1..], limit - 1);
    }
  }

  lemma {:induction false} RunIsLongest(atom: Atom, text: string, limit: nat, k: nat)
    requires k <= |text| && k <= limit
    ensures AllMatch(atom, text[..k]) <==> k <= Run(atom, text, limit)
  {
    if k > 0 {
      var rest := text[1..][..k - 1];
      assert text[..k] == [text[0]] + rest;
      assert AllMatch(atom, [text[0]] + rest) <==> MatchesChar(atom, text[0]) && AllMatch(atom, rest) by {
        FirstMatches(atom, text[0], rest);
      }
      if MatchesChar(atom, text[0]) {
        RunIsLongest(atom, text[1..], limit - 1, k - 1);
      }
    }
  }

  lemma FirstMatches(atom: Atom, c: char, rest: string)
    ensures AllMatch(atom, [c] + rest) <==> MatchesChar(atom, c) && AllMatch(atom, rest)
  {
    if AllMatch(atom, [c] + rest) {
      assert ([c] + rest)[0] == c;
      forall i | 0 <= i < |rest|
        ensures MatchesChar(atom, rest[i])
      {
        assert ([c] + rest)[i + 1] == rest[i];
      }
    }
  }

  /** A choice for the first piece after which the rest begins. */
  ghost predicate GoesOn(pieces: seq<Piece>, text: string, k: nat)
    requires ValidPieces(pieces) && pieces != []
  {
    && Low(pieces[0]) <= k <= High(pieces[0]) && k <= |text|
    && AllMatch(pieces[0].atom, text[..k])
    && BeginsWith(pieces[1..], text[k..])
  }

  lemma BeginsByChoice(pieces: seq<Piece>, text: string)
    requires ValidPieces(pieces) && pieces != []
    ensures BeginsWith(pieces, text) <==> exists k: nat :: GoesOn(pieces, text, k)
  {
    if BeginsWith(pieces, text) {
      var j :| 0 <= j <= |text| && InLanguage(pieces, text[..j]);
      var k :| Low(pieces[0]) <= k <= High(pieces[0]) && k <= j
               && AllMatch(pieces[0].atom, text[..j][..k]) && InLanguage(pieces[1..], text[..j][k..]);
      assert text[..j][..k] == text[..k];
      assert text[..j][k..] == text[k..][..j - k];
      assert GoesOn(pieces, text, k);
    }
    if exists k: nat :: GoesOn(pieces, text, k) {
      var k: nat :| GoesOn(pieces, text, k);
      var j :| 0 <= j <= |text[k..]| && InLanguage(pieces[1..], text[k..][..j]);
      assert text[..k + j][..k] == text[..k];
      assert text[..k + j][k..] == text[k..][..j];
      assert InLanguage(pieces, text[..k + j]);
    }
  }

  lemma {:induction false} MatchDecides(pieces: seq<Piece>, text: string)
    requires ValidPieces(pieces)
    ensures MatchHere(pieces, text).found <==> BeginsWith(pieces, text)
    decreases |pieces|, 1, 0
  {
    if pieces == [] {
      assert InLanguage(pieces, text[..0]);
    } else {
      BeginsByChoice(pieces, text);
      var run := Run(pieces[0].atom, text, High(pieces[0]));
      RunWithin(pieces[0].atom, text, High(pieces[0]));
      forall k: nat | Low(pieces[0]) <= k <= High(pieces[0]) && k <= |text|
        ensures AllMatch(pieces[0].atom, text[..k]) <==> k <= run
      {
        RunIsLongest(pieces[0].atom, text, High(pieces[0]), k);
      }
      if run >= Low(pieces[0]) {
        TryDecides(pieces, text, run);
        if exists k: nat :: GoesOn(pieces, text, k) {
          var k: nat :| GoesOn(pieces, text, k);
          assert BeginsWith(pieces[1..], text[k..]);
        }
        if TryFrom(pieces, text, run).found {
          var k :| Low(pieces[0]) <= k <= run && BeginsWith(pieces[1..], text[k..]);
          assert GoesOn(pieces, text, k);
        }
      }
    }
  }

  lemma {:induction false} TryDecides(pieces: seq<Piece>, text: string, k: nat)
    requires ValidPieces(pieces) && pieces != [] && Low(pieces[0]) <= k <= |text|
    ensures TryFrom(pieces, text, k).found <==>
            exists j :: Low(pieces[0]) <= j <= k && BeginsWith(pieces[1..], text[j..])
    decreases |pieces|, 0, k
  {
    MatchDecides(pieces[1..], text[k..]);
    if k > Low(pieces[0]) {
      TryDecides(pieces, text, k - 1);
    }
  }

  lemma {:induction false} SearchDecides(p: Pattern, text: string, i: nat)
    requires ValidPieces(p.pieces) && i <= |text|
    ensures Search(p, text, i).found <==>
            exists j :: i <= j <= |text| && (p.anchored ==> j == i) && BeginsWith(p.pieces, text[j..])
    decreases |text| - i
  {
    MatchDecides(p.pieces, text[i..]);
    if !Search(p, text, i).found || !MatchHere(p.pieces, text[i..]).found {
      if !p.anchored && i < |text| {
        SearchDecides(p, text, i + 1);
      }
    }
  }

  // It does so in linear time

  /** Without a quantifier nothing is ever given back. */
  lemma {:induction false} PlainSteps(pieces: seq<Piece>, text: string)
    requires ValidPieces(pieces) && Quantified(pieces) == 0
    ensures MatchHere(pieces, text).steps <= 2 * |pieces| + 1
  {
    if pieces != [] {
      RunWithin(pieces[0].atom, text, 1);
      if Run(pieces[0].atom, text, 1) == 1 {
        PlainSteps(pieces[1..], text[1..]);
      }
    }
  }

  lemma OneMore(n: nat, per: nat)
    ensures n * per + per == (n + 1) * per
  {
  }

  lemma MoreTimes(m: nat, n: nat, per: nat)
    requires m <= n
    ensures m * per <= n * per
  {
  }

  lemma {:induction false} TrySteps(pieces: seq<Piece>, text: string, k: nat, per: nat)
    requires ValidPieces(pieces) && pieces != [] && Quantified(pieces[1..]) == 0 && Low(pieces[0]) <= k <= |text|
    requires 2 * |pieces| - 1 <= per
    ensures TryFrom(pieces, text, k).steps <= (k - Low(pieces[0]) + 1) * per
    decreases k
  {
    PlainSteps(pieces[1..], text[k..]);
    OneMore(k - Low(pieces[0]), per);
    if k > Low(pieces[0]) {
      hide MatchHere, Quantified, ValidPieces;
      TrySteps(pieces, text, k - 1, per);
    }
  }

  /** With one quantifier, what is tried again is a plain rest, at most 65 times. */
  lemma {:induction false} OneQuantifierSteps(pieces: seq<Piece>, text: string)
    requires ValidPieces(pieces) && Quantified(pieces) <= 1
    ensures MatchHere(pieces, text).steps <= 130 * |pieces| + 1
  {
    if pieces != [] {
      RunWithin(pieces[0].atom, text, High(pieces[0]));
      var run := Run(pieces[0].atom, text, High(pieces[0]));
      if pieces[0].quantifier.None? {
        if run == 1 {
          OneQuantifierSteps(pieces[1..], text[1..]);
        }
      } else if run >= Low(pieces[0]) {
        GivenBack(pieces, text, run);
      }
    }
  }

  lemma GivenBack(pieces: seq<Piece>, text: string, run: nat)
    requires ValidPieces(pieces) && pieces != [] && Quantified(pieces) <= 1 && pieces[0].quantifier.Some?
    requires Low(pieces[0]) <= run <= |text| && run <= MAX_REPEAT
    ensures TryFrom(pieces, text, run).steps <= 65 * (2 * |pieces| - 1)
  {
    hide TryFrom;
    TrySteps(pieces, text, run, 2 * |pieces| - 1);
    MoreTimes(run - Low(pieces[0]) + 1, 65, 2 * |pieces| - 1);
  }

  lemma {:induction false} SearchSteps(p: Pattern, text: string, i: nat, per: nat)
    requires ValidPieces(p.pieces) && i <= |text|
    requires forall j :: 0 <= j <= |text| ==> MatchHere(p.pieces, text[j..]).steps <= per
    ensures Search(p, text, i).steps <= (|text| - i + 1) * per
    decreases |text| - i
  {
    hide MatchHere;
    OneMore(|text| - i, per);
    if !(MatchHere(p.pieces, text[i..]).found || p.anchored || i == |text|) {
      SearchSteps(p, text, i + 1, per);
    }
  }

  lemma {:induction false} PiecesArePrinted(pieces: seq<Piece>)
    requires ValidPieces(pieces)
    ensures |pieces| <= |PrintPieces(pieces)|
  {
    if pieces != [] {
      PiecesArePrinted(pieces[1..]);
      assert ValidPiece(pieces[0]);
      assert |PrintAtom(pieces[0].atom)| >= 1;
    }
  }

  const STEPS_PER_POSITION: nat := 130 * MAX_PATTERN_LENGTH + 1

  /** Every accepted pattern: the matcher decides whether it occurs, and its steps are linear in the
      length of the text, with a factor the profile fixes. */
  lemma AcceptedIsLinear(pattern: string, text: string)
    requires Parse(pattern).Some?
    ensures ValidPieces(Parse(pattern).value.pieces)
    ensures Search(Parse(pattern).value, text, 0).found <==> Occurs(Parse(pattern).value, text)
    ensures Search(Parse(pattern).value, text, 0).steps <= (|text| + 1) * STEPS_PER_POSITION
  {
    hide *;
    AcceptedShape(pattern);
    var p := Parse(pattern).value;
    SearchIsOccurs(p, text);
    forall j | 0 <= j <= |text|
      ensures MatchHere(p.pieces, text[j..]).steps <= STEPS_PER_POSITION
    {
      PositionSteps(p.pieces, text[j..]);
    }
    SearchSteps(p, text, 0, STEPS_PER_POSITION);
  }

  lemma AcceptedShape(pattern: string)
    requires Parse(pattern).Some?
    ensures var pieces := Parse(pattern).value.pieces;
            ValidPieces(pieces) && Quantified(pieces) <= 1 && |pieces| <= MAX_PATTERN_LENGTH
  {
    ParseSound(pattern);
    var pieces := Parse(pattern).value.pieces;
    assert forall i :: 0 <= i < |pieces| ==> pieces[i] in pieces;
    PiecesArePrinted(pieces);
  }

  lemma PositionSteps(pieces: seq<Piece>, text: string)
    requires ValidPieces(pieces) && Quantified(pieces) <= 1 && |pieces| <= MAX_PATTERN_LENGTH
    ensures MatchHere(pieces, text).steps <= STEPS_PER_POSITION
  {
    hide MatchHere, Quantified;
    OneQuantifierSteps(pieces, text);
  }

  lemma SearchIsOccurs(p: Pattern, text: string)
    requires ValidPieces(p.pieces)
    ensures Search(p, text, 0).found <==> Occurs(p, text)
  {
    hide Search, BeginsWith;
    SearchDecides(p, text, 0);
  }
}

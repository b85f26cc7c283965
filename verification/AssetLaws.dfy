/** What holds of every catalog that imports build, in any number and any order. */
module AssetLaws {
  import opened JsonValues
  import opened AssetModels
  import opened AssetCatalog

  // The invariant over every run

  lemma AvailableResolves(s: Catalog, b: Bundle, r: Ref)
    requires Available(s, b, r)
    ensures Resolves(After(s, b), r)
  {
  }

  /** A digest never comes to name another document. */
  lemma DocumentStays(s: Catalog, b: Bundle, d: Digest)
    requires Sound(s) && ValidBundle(b) && d in s.manifests
    ensures d in After(s, b).manifests && After(s, b).manifests[d] == s.manifests[d]
  {
    assert DocumentInPlace(s, d);
    if d in b.documents {
      DigestBindsDocument(s.manifests[d].document, b.documents[d]);
    }
  }

  lemma EventStays(s: Catalog, b: Bundle, e: Digest)
    requires Sound(s) && ValidBundle(b) && e in s.events
    ensures e in After(s, b).events && After(s, b).events[e] == s.events[e]
  {
    assert EventInPlace(s, e);
  }

  lemma NewDocumentInPlace(s: Catalog, b: Bundle, d: Digest)
    requires Sound(s) && ValidBundle(b) && Accepts(s, b) && d in b.documents
    ensures DocumentInPlace(After(s, b), d)
  {
    var document := b.documents[d];
    assert document.manifest.bodyDigest in BodyDigests(b.documents);
    forall r | r in DocumentReferences(document)
      ensures Resolves(After(s, b), r)
    {
      AvailableResolves(s, b, r);
    }
  }

  lemma OldDocumentInPlace(s: Catalog, b: Bundle, d: Digest)
    requires Sound(s) && ValidBundle(b) && Accepts(s, b) && d in s.manifests
    ensures DocumentInPlace(After(s, b), d)
  {
    DocumentStays(s, b, d);
    assert DocumentInPlace(s, d);
    forall r | r in DocumentReferences(s.manifests[d].document)
      ensures Resolves(After(s, b), r)
    {
      DocumentStays(s, b, r.digest);
    }
  }

  lemma NewEventInPlace(s: Catalog, b: Bundle, e: Digest)
    requires Sound(s) && ValidBundle(b) && Accepts(s, b) && e in b.events
    ensures EventInPlace(After(s, b), e)
  {
    hide Sound, KindsAgree, DocumentsResolve;
    var event := b.events[e];
    assert EventResolves(s, b, event) && OutcomeAgrees(s, b, event);
    forall r | r in EventReferences(event)
      ensures Resolves(After(s, b), r)
    {
      AvailableResolves(s, b, r);
    }
    if event.core.kind.OutcomeEvent? {
      var outcome := event.core.outcome.value;
      assert outcome in EventReferences(event);
      if outcome.digest !in b.documents {
        DocumentStays(s, b, outcome.digest);
      }
    }
  }

  lemma OldEventInPlace(s: Catalog, b: Bundle, e: Digest)
    requires Sound(s) && ValidBundle(b) && Accepts(s, b) && e in s.events
    ensures EventInPlace(After(s, b), e)
  {
    EventStays(s, b, e);
    assert EventInPlace(s, e);
    var event := s.events[e].event;
    forall r | r in EventReferences(event)
      ensures Resolves(After(s, b), r)
    {
      DocumentStays(s, b, r.digest);
    }
    if event.core.kind.OutcomeEvent? {
      DocumentStays(s, b, event.core.outcome.value.digest);
    }
  }

  /** After an accepted import there is still at most one outcome event an episode. */
  lemma OutcomesStayUnique(s: Catalog, b: Bundle, e: Digest, f: Digest)
    requires Sound(s) && ValidBundle(b) && Accepts(s, b)
    requires e in After(s, b).events && f in After(s, b).events && e != f && After(s, b).events[e].kind.OutcomeEvent?
    ensures !IsOutcomeOf(After(s, b).events[f], After(s, b).events[e].episode)
  {
    if e in s.events {
      EventStays(s, b, e);
    }
    if f in s.events {
      EventStays(s, b, f);
    }
    if e !in s.events {
      assert EventFits(s.events, b.events[e]);
    }
    if f !in s.events {
      assert EventFits(s.events, b.events[f]);
    }
  }

  lemma ImportKeepsSound(s: Catalog, b: Bundle)
    requires Sound(s) && ValidBundle(b)
    ensures Sound(ImportInto(s, b))
  {
    hide Accepts, ValidBundle, DocumentInPlace, EventInPlace, IsOutcomeOf;
    if Accepts(s, b) {
      var t := After(s, b);
      forall d | d in t.manifests
        ensures DocumentInPlace(t, d)
      {
        if d in b.documents {
          NewDocumentInPlace(s, b, d);
        } else {
          OldDocumentInPlace(s, b, d);
        }
      }
      forall e | e in t.events
        ensures EventInPlace(t, e)
      {
        if e in b.events {
          NewEventInPlace(s, b, e);
        } else {
          OldEventInPlace(s, b, e);
        }
      }
      forall e, f | e in t.events && f in t.events && e != f && t.events[e].kind.OutcomeEvent?
        ensures !IsOutcomeOf(t.events[f], t.events[e].episode)
      {
        OutcomesStayUnique(s, b, e, f);
      }
    }
  }

  /** The store invariant, over every run of imports from the empty store. */
  lemma {:induction false} RunIsSound(bundles: seq<Bundle>)
    requires forall b :: b in bundles ==> ValidBundle(b)
    ensures Sound(Run(bundles)) && ForeignKeys(Run(bundles))
  {
    if bundles != [] {
      RunIsSound(bundles[..|bundles| - 1]);
      ImportKeepsSound(Run(bundles[..|bundles| - 1]), bundles[|bundles| - 1]);
    }
    forall d | d in Run(bundles).manifests
      ensures Run(bundles).manifests[d].bodyDigest in Run(bundles).bodies
    {
      assert DocumentInPlace(Run(bundles), d);
    }
  }

  /** In a sound catalog no digest conflict is left to find: an import is refused only for a
      reference that does not resolve, an outcome event that disagrees with its outcome, or a
      second outcome of an episode. */
  lemma OnlyThreeRefusals(s: Catalog, b: Bundle)
    requires Sound(s) && ValidBundle(b)
    ensures KindsAgree(s, b) && DocumentsFit(s, b)
    ensures forall e :: e in b.events && e in s.events ==> s.events[e] == RowOfEvent(b.events[e])
  {
    forall d | d in b.documents
      ensures DocumentFits(s, b.documents[d])
      ensures d in s.manifests ==> s.manifests[d].kind == b.documents[d].manifest.asset.kind
    {
      if d in s.manifests {
        assert DocumentInPlace(s, d);
        DigestBindsDocument(s.manifests[d].document, b.documents[d]);
      }
    }
    forall e | e in b.events && e in s.events
      ensures s.events[e] == RowOfEvent(b.events[e])
    {
      assert EventInPlace(s, e);
    }
  }

  /** References never lead back: each names content that is part of the content naming it. */
  lemma {:induction false} TrailDescends(s: Catalog, path: seq<Ref>)
    requires Sound(s) && Trail(s, path) && |path| > 1
    requires forall i :: 0 <= i < |path| ==> path[i].digest in s.manifests
    ensures path[|path| - 1].digest < path[0].digest
  {
    var next := path[1];
    assert DocumentInPlace(s, path[0].digest);
    assert path[0 + 1] in Next(s, path[0]);
    if |path| > 2 {
      var rest := path[1..];
      forall i | 0 <= i < |rest| - 1
        ensures rest[i + 1] in Next(s, rest[i])
      {
        assert path[(i + 1) + 1] in Next(s, path[i + 1]);
      }
      TrailDescends(s, rest);
    }
  }

  lemma ReferencesAreAcyclic(s: Catalog, path: seq<Ref>)
    requires Sound(s) && Trail(s, path) && |path| > 1
    requires forall i :: 0 <= i < |path| ==> path[i].digest in s.manifests
    ensures path[0].digest != path[|path| - 1].digest
  {
    TrailDescends(s, path);
  }

  // Imports only add

  /** `t` has every row of `s`, unchanged. */
  ghost predicate Extends(s: Catalog, t: Catalog) {
    && (forall k :: k in s.bodies ==> k in t.bodies && t.bodies[k] == s.bodies[k])
    && (forall d :: d in s.manifests ==> d in t.manifests && t.manifests[d] == s.manifests[d])
    && (forall e :: e in s.events ==> e in t.events && t.events[e] == s.events[e])
  }

  lemma ImportExtends(s: Catalog, b: Bundle)
    requires Sound(s) && ValidBundle(b)
    ensures Extends(s, ImportInto(s, b))
  {
    if Accepts(s, b) {
      forall d | d in s.manifests
        ensures d in After(s, b).manifests && After(s, b).manifests[d] == s.manifests[d]
      {
        DocumentStays(s, b, d);
      }
      forall e | e in s.events
        ensures e in After(s, b).events && After(s, b).events[e] == s.events[e]
      {
        EventStays(s, b, e);
      }
    }
  }

  /** What was observed of an episode stays what is observed, whatever is imported later. */
  lemma {:induction false} ObservedStays(s: Catalog, later: seq<Bundle>, e: Digest)
    requires Sound(s) && forall b :: b in later ==> ValidBundle(b)
    requires e in s.events && s.events[e].kind.OutcomeEvent? && s.events[e].episode.Some?
    ensures var t := RunFrom(s, later);
            && Sound(t) && e in t.events && t.events[e] == s.events[e]
            && forall f :: f in t.events && IsOutcomeOf(t.events[f], s.events[e].episode) ==> f == e
  {
    if later != [] {
      var before := RunFrom(s, later[..|later| - 1]);
      ObservedStays(s, later[..|later| - 1], e);
      ImportKeepsSound(before, later[|later| - 1]);
      ImportExtends(before, later[|later| - 1]);
    }
  }

  function RunFrom(s: Catalog, bundles: seq<Bundle>): Catalog {
    if bundles == [] then s else ImportInto(RunFrom(s, bundles[..|bundles| - 1]), bundles[|bundles| - 1])
  }

  lemma GrownAgain(s: Catalog, b: Bundle)
    ensures After(After(s, b), b) == After(s, b)
  {
    var t := After(s, b);
    assert t.bodies + BodyRows(b.documents) == t.bodies;
    assert t.manifests + DocumentRows(b.documents) == t.manifests;
    assert t.events + EventRows(b.events) == t.events;
  }

  lemma AgreesAgain(s: Catalog, b: Bundle, e: Event)
    requires EventResolves(s, b, e) && OutcomeAgrees(s, b, e) && ValidEvent(e)
    ensures EventResolves(After(s, b), b, e) && OutcomeAgrees(After(s, b), b, e)
  {
    forall r | r in EventReferences(e)
      ensures Available(After(s, b), b, r)
    {
      assert Available(s, b, r);
      AvailableResolves(s, b, r);
    }
    if e.core.kind.OutcomeEvent? {
      assert e.core.outcome.value in EventReferences(e);
    }
  }

  lemma ChecksAgain(s: Catalog, b: Bundle)
    requires ValidBundle(b) && DocumentsResolve(s, b) && EventsAgree(s, b)
    ensures DocumentsResolve(After(s, b), b) && EventsAgree(After(s, b), b)
  {
    forall d, r | d in b.documents && r in DocumentReferences(b.documents[d])
      ensures Available(After(s, b), b, r)
    {
      assert Available(s, b, r);
      AvailableResolves(s, b, r);
    }
    forall e | e in b.events
      ensures EventResolves(After(s, b), b, b.events[e]) && OutcomeAgrees(After(s, b), b, b.events[e])
    {
      AgreesAgain(s, b, b.events[e]);
    }
  }

  /** Importing the same bundle again is accepted and changes nothing. */
  lemma ImportIsIdempotent(s: Catalog, b: Bundle)
    requires Sound(s) && ValidBundle(b) && Accepts(s, b)
    ensures Accepts(After(s, b), b) && After(After(s, b), b) == After(s, b)
  {
    var t := After(s, b);
    hide Sound, DocumentsResolve, EventsAgree, DocumentsFit, KindsAgree, EventsFit, After, ValidBundle;
    GrownAgain(s, b);
    ImportKeepsSound(s, b);
    OnlyThreeRefusals(t, b);
    ChecksAgain(s, b);
    EventsFitAgain(s, b);
  }

  lemma EventsFitAgain(s: Catalog, b: Bundle)
    requires ValidBundle(b)
    ensures EventsFit(After(s, b), b)
  {
    assert forall e :: e in b.events ==> After(s, b).events[e] == RowOfEvent(b.events[e]);
  }

  lemma OverlaysCommute<K, V>(m: map<K, V>, a: map<K, V>, b: map<K, V>)
    requires forall k :: k in a && k in b ==> a[k] == b[k]
    ensures m + a + b == m + b + a
  {
  }

  /** Two imports that both succeed in either order end in the same catalog. */
  lemma ImportsCommute(s: Catalog, a: Bundle, b: Bundle)
    requires ValidBundle(a) && ValidBundle(b)
    ensures After(After(s, a), b) == After(After(s, b), a)
  {
    forall d | d in a.documents && d in b.documents
      ensures a.documents[d] == b.documents[d]
    {
      DigestBindsDocument(a.documents[d], b.documents[d]);
    }
    OverlaysCommute(s.bodies, BodyRows(a.documents), BodyRows(b.documents));
    OverlaysCommute(s.manifests, DocumentRows(a.documents), DocumentRows(b.documents));
    OverlaysCommute(s.events, EventRows(a.events), EventRows(b.events));
  }

  lemma ImportOrderIsFree(s: Catalog, a: Bundle, b: Bundle)
    requires ValidBundle(a) && ValidBundle(b)
    requires Accepts(s, a) && Accepts(After(s, a), b)
    requires Accepts(s, b) && Accepts(After(s, b), a)
    ensures ImportInto(ImportInto(s, a), b) == ImportInto(ImportInto(s, b), a)
  {
    ImportsCommute(s, a, b);
  }

  // Export and import undo each other

  lemma ExportIsValid(s: Catalog, roots: set<Ref>, includeEvents: bool)
    requires Sound(s)
    ensures ValidBundle(ExportOf(s, roots, includeEvents))
  {
    var b := ExportOf(s, roots, includeEvents);
    forall d | d in b.documents
      ensures ValidDocument(b.documents[d]) && b.documents[d].manifest.asset.digest == d
    {
    }
    forall e | e in b.events
      ensures ValidEvent(b.events[e]) && b.events[e].eventDigest == e
    {
      assert EventInPlace(s, e);
    }
  }

  /** An export holds whatever its documents refer to. */
  lemma ClosureIsClosed(s: Catalog, roots: set<Ref>, d: Digest, r: Ref)
    requires Sound(s) && Exportable(s, roots)
    requires d in Closure(s, roots) && r in DocumentReferences(Closure(s, roots)[d])
    ensures r.digest in Closure(s, roots) && Closure(s, roots)[r.digest].manifest.asset.kind == r.kind
  {
    var from :| Reached(s, roots, from) && from.digest == d;
    NextReached(s, roots, from);
    assert Reached(s, roots, r) && Resolves(s, r);
    assert DigestReached(s, roots, r.digest);
  }

  lemma ExportedEventAgrees(s: Catalog, roots: set<Ref>, e: Digest)
    requires Sound(s) && Exportable(s, roots)
    requires e in CoveredEvents(s, Closure(s, roots))
    ensures var b := ExportOf(s, roots, true);
            EventResolves(EMPTY, b, b.events[e]) && OutcomeAgrees(EMPTY, b, b.events[e])
  {
    var b := ExportOf(s, roots, true);
    assert EventInPlace(s, e);
    forall r | r in EventReferences(b.events[e])
      ensures Available(EMPTY, b, r)
    {
    }
    if b.events[e].core.kind.OutcomeEvent? {
      assert b.events[e].core.outcome.value in EventReferences(b.events[e]);
    }
  }

  /** An export imports into an empty store. */
  lemma ExportImports(s: Catalog, roots: set<Ref>, includeEvents: bool)
    requires Sound(s) && Exportable(s, roots)
    ensures Accepts(EMPTY, ExportOf(s, roots, includeEvents))
  {
    var b := ExportOf(s, roots, includeEvents);
    forall d, r | d in b.documents && r in DocumentReferences(b.documents[d])
      ensures Available(EMPTY, b, r)
    {
      ClosureIsClosed(s, roots, d, r);
    }
    forall e | e in b.events
      ensures EventResolves(EMPTY, b, b.events[e]) && OutcomeAgrees(EMPTY, b, b.events[e])
    {
      ExportedEventAgrees(s, roots, e);
    }
    forall e, f | e in b.events && f in b.events && e != f && b.events[e].core.kind.OutcomeEvent?
      ensures !IsOutcomeOf(RowOfEvent(b.events[f]), RowOfEvent(b.events[e]).episode)
    {
      assert EventInPlace(s, e) && EventInPlace(s, f);
    }
  }

  lemma CopyRows(s: Catalog, roots: set<Ref>, includeEvents: bool, d: Digest)
    requires Sound(s)
    ensures var t := After(EMPTY, ExportOf(s, roots, includeEvents));
            d in t.manifests <==> d in Closure(s, roots)
    ensures var t := After(EMPTY, ExportOf(s, roots, includeEvents));
            d in t.manifests ==> d in s.manifests && t.manifests[d].document == s.manifests[d].document
  {
  }

  lemma {:induction false} TrailInCopy(s: Catalog, roots: set<Ref>, t: Catalog, path: seq<Ref>)
    requires Trail(s, path) && path[0] in roots
    requires forall d :: d in t.manifests <==> d in Closure(s, roots)
    requires forall d :: d in t.manifests ==> t.manifests[d].document == s.manifests[d].document
    requires Sound(s) && Exportable(s, roots)
    ensures Trail(t, path)
  {
    forall i | 0 <= i < |path| - 1
      ensures path[i + 1] in Next(t, path[i])
    {
      var prefix := path[..i + 1];
      assert Trail(s, prefix) && prefix[0] in roots && prefix[|prefix| - 1] == path[i];
      assert Reached(s, roots, path[i]);
      assert DigestReached(s, roots, path[i].digest);
      assert path[i].digest in Closure(s, roots);
      assert path[i + 1] in Next(s, path[i]);
    }
  }

  /** The same references are reached in the copy. */
  lemma ReachedInCopy(s: Catalog, roots: set<Ref>, t: Catalog, r: Ref)
    requires forall d :: d in t.manifests <==> d in Closure(s, roots)
    requires forall d :: d in t.manifests ==> d in s.manifests && t.manifests[d].document == s.manifests[d].document
    requires Sound(s) && Exportable(s, roots)
    ensures Reached(t, roots, r) <==> Reached(s, roots, r)
  {
    if Reached(t, roots, r) {
      var path :| Trail(t, path) && path[0] in roots && path[|path| - 1] == r;
    }
    if Reached(s, roots, r) {
      var path :| Trail(s, path) && path[0] in roots && path[|path| - 1] == r;
      TrailInCopy(s, roots, t, path);
    }
  }

  lemma ClosureOfCopy(s: Catalog, roots: set<Ref>, t: Catalog)
    requires forall d :: d in t.manifests <==> d in Closure(s, roots)
    requires forall d :: d in t.manifests ==> d in s.manifests && t.manifests[d].document == s.manifests[d].document
    requires Sound(s) && Exportable(s, roots)
    ensures Closure(t, roots) == Closure(s, roots)
  {
    forall d | d in t.manifests
      ensures DigestReached(t, roots, d)
    {
      var r :| Reached(s, roots, r) && r.digest == d;
      ReachedInCopy(s, roots, t, r);
    }
  }

  lemma EventsOfCopy(s: Catalog, t: Catalog, documents: map<Digest, Document>)
    ensures t.events == map[] + EventRows(CoveredEvents(s, documents)) ==>
              CoveredEvents(t, documents) == CoveredEvents(s, documents)
  {
  }

  /** Exporting, importing into an empty store, and exporting the same roots again gives the same
      bundle, events and all. */
  lemma RoundTrip(s: Catalog, roots: set<Ref>, includeEvents: bool)
    requires Sound(s) && Exportable(s, roots)
    ensures var b := ExportOf(s, roots, includeEvents);
            ValidBundle(b) && Accepts(EMPTY, b) && Sound(After(EMPTY, b))
            && Exportable(After(EMPTY, b), roots) && ExportOf(After(EMPTY, b), roots, includeEvents) == b
  {
    var b := ExportOf(s, roots, includeEvents);
    var t := After(EMPTY, b);
    hide Sound, Accepts, Exportable, ValidBundle, Closure, CoveredEvents, BodyRows;
    ExportIsValid(s, roots, includeEvents);
    ExportImports(s, roots, includeEvents);
    EmptyIsSound();
    ImportKeepsSound(EMPTY, b);
    forall d
      ensures d in t.manifests <==> d in Closure(s, roots)
      ensures d in t.manifests ==> d in s.manifests && t.manifests[d].document == s.manifests[d].document
    {
      CopyRows(s, roots, includeEvents, d);
    }
    ClosureOfCopy(s, roots, t);
    CopyResolves(s, roots, t);
    EventsOfCopy(s, t, Closure(s, roots));
  }

  lemma EmptyIsSound()
    ensures Sound(EMPTY)
  {
  }

  lemma CopyResolves(s: Catalog, roots: set<Ref>, t: Catalog)
    requires forall d :: d in t.manifests <==> d in Closure(s, roots)
    requires forall d :: d in t.manifests ==> d in s.manifests && t.manifests[d].document == s.manifests[d].document
    requires Sound(s) && Sound(t) && Exportable(s, roots)
    ensures Exportable(t, roots)
  {
    forall r | Reached(t, roots, r)
      ensures Resolves(t, r)
    {
      ReachedInCopy(s, roots, t, r);
      assert Resolves(s, r) && DigestReached(s, roots, r.digest);
      assert DocumentInPlace(s, r.digest) && DocumentInPlace(t, r.digest);
    }
  }

  /** A sound catalog exports from exactly the roots it holds under their kinds. */
  lemma {:induction false} HeldRootsExport(s: Catalog, roots: set<Ref>)
    requires Sound(s)
    ensures Exportable(s, roots) <==> forall r :: r in roots ==> Resolves(s, r)
  {
    RootsReached(s, roots);
    if forall r :: r in roots ==> Resolves(s, r) {
      forall r | Reached(s, roots, r)
        ensures Resolves(s, r)
      {
        var path :| Trail(s, path) && path[0] in roots && path[|path| - 1] == r;
        TrailResolves(s, roots, path);
      }
    }
  }

  lemma {:induction false} TrailResolves(s: Catalog, roots: set<Ref>, path: seq<Ref>)
    requires Sound(s) && forall r :: r in roots ==> Resolves(s, r)
    requires Trail(s, path) && path[0] in roots
    ensures Resolves(s, path[|path| - 1])
  {
    if |path| > 1 {
      var shorter := path[..|path| - 1];
      TrailResolves(s, roots, shorter);
      assert DocumentInPlace(s, shorter[|shorter| - 1].digest);
      assert path[(|path| - 2) + 1] in Next(s, path[|path| - 2]);
    }
  }
}

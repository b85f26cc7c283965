/** What documents and events refer to, field by field, and what of it imports and exports keep together. */
module AssetReferences {
  import opened JsonValues
  import opened AssetModels
  import opened AssetCatalog
  import opened AssetLaws

  // References by field

  predicate DocumentNames(d: Document, r: Ref) {
    || d.manifest.previous == Some(r)
    || match d.body
       case AgentFingerprint(_) => false
       case Episode(agent, selected, used, _) => r == agent || r in selected || r in used
       case Evaluation(evaluator, subjects, _) => r == evaluator || r in subjects
       case Outcome(episode, evidence, _) => r == episode || r in evidence
       case Proposal(basedOn, _) => r in basedOn
  }

  predicate EventNames(e: Event, r: Ref) {
    || e.core.agent == Some(r) || e.core.episode == Some(r) || e.core.outcome == Some(r) || r in e.core.assets
    || exists a :: a in e.core.attributions && (a.source == r || a.target == r)
  }

  lemma DocumentReferencesAreNamed(d: Document, r: Ref)
    requires ValidDocument(d)
    ensures r in DocumentReferences(d) <==> DocumentNames(d, r)
  {
  }

  lemma EventReferencesAreNamed(e: Event, r: Ref)
    ensures r in EventReferences(e) <==> EventNames(e, r)
  {
  }

  // Validators by field

  /** What the fields of a body must be among themselves. */
  predicate BodyInOrder(body: Body) {
    match body
    case AgentFingerprint(_) => true
    case Episode(agent, selected, used, _) => agent.kind == AgentKind && forall r :: r in used ==> r in selected
    case Evaluation(evaluator, subjects, _) => evaluator.kind == AgentKind && subjects != {}
    case Outcome(episode, _, _) => episode.kind == EpisodeKind
    case Proposal(basedOn, _) => basedOn != {}
  }

  /** The kind an asset of this body has. */
  predicate OfKind(body: Body, kind: Kind) {
    match kind
    case AgentKind => body.AgentFingerprint?
    case EpisodeKind => body.Episode?
    case EvaluationKind => body.Evaluation?
    case OutcomeKind => body.Outcome?
    case ProposalKind => body.Proposal?
  }

  /** A document is valid exactly when its body is in order, its kinds agree, and its two digests are those of its body
      and of its manifest, which lists all that its body names and nothing else. */
  lemma ValidExactly(d: Document)
    ensures ValidDocument(d) <==>
            var m := d.manifest;
            && BodyInOrder(d.body) && OfKind(d.body, m.asset.kind) && m.bodySchema == m.asset.kind
            && m.bodyDigest == OfBody(d.body) && m.asset.digest == m.manifestDigest
            && m.manifestDigest == OfManifest(m.asset.kind, m.bodySchema, m.bodyDigest, m.previous, m.dependencies)
            && (m.previous.Some? ==> m.previous.value.kind == m.asset.kind)
            && forall r :: r in m.dependencies <==> DocumentNames(d.(manifest := m.(previous := None)), r)
  {
  }

  /** An event is valid exactly when its kind has what it needs, its references are of their kinds, and its digest is
      that of its content. */
  lemma EventValidExactly(e: Event)
    ensures ValidEvent(e) <==>
            && e.eventDigest == OfEvent(e.core)
            && (e.core.agent.Some? ==> e.core.agent.value.kind == AgentKind)
            && (e.core.episode.Some? ==> e.core.episode.value.kind == EpisodeKind)
            && (e.core.outcome.Some? <==> e.core.kind == OutcomeEvent)
            && match e.core.kind
               case OutcomeEvent => e.core.episode.Some? && e.core.outcome.value.kind == OutcomeKind
               case AttributionEvent => e.core.attributions != {}
               case _ => e.core.assets != {}
  {
  }

  // Whole catalogs and bundles

  /** The documents there are, under their kinds. */
  function Stored(s: Catalog): set<Ref> {
    set d | d in s.manifests :: Ref(s.manifests[d].kind, d)
  }

  function Carried(b: Bundle): set<Ref> {
    set d | d in b.documents :: Ref(b.documents[d].manifest.asset.kind, d)
  }

  /** Everything the document names is among `there`, its previous revision under its own kind. */
  ghost predicate DocumentWhole(d: Document, there: set<Ref>) {
    && (d.manifest.previous.Some? ==>
          d.manifest.previous.value in there && d.manifest.previous.value.kind == d.manifest.asset.kind)
    && forall r :: DocumentNames(d, r) ==> r in there
  }

  ghost predicate EventWhole(e: Event, there: set<Ref>) {
    forall r :: EventNames(e, r) ==> r in there
  }

  lemma StoredResolves(s: Catalog, r: Ref)
    ensures r in Stored(s) <==> Resolves(s, r)
  {
  }

  lemma StoredDocumentIsWhole(s: Catalog, d: Digest)
    requires Sound(s) && d in s.manifests
    ensures DocumentWhole(s.manifests[d].document, Stored(s))
  {
    hide DocumentNames, DocumentReferences, Resolves;
    var document := s.manifests[d].document;
    assert DocumentInPlace(s, d);
    forall r | DocumentNames(document, r) ensures r in Stored(s) {
      DocumentReferencesAreNamed(document, r);
      StoredResolves(s, r);
    }
    PreviousIsNamed(document);
  }

  lemma PreviousIsNamed(d: Document)
    ensures d.manifest.previous.Some? ==> DocumentNames(d, d.manifest.previous.value)
  {
  }

  lemma StoredEventIsWhole(s: Catalog, e: Digest)
    requires Sound(s) && e in s.events
    ensures EventWhole(s.events[e].event, Stored(s))
  {
    hide EventNames, EventReferences, Resolves;
    var event := s.events[e].event;
    assert EventInPlace(s, e);
    forall r | EventNames(event, r) ensures r in Stored(s) {
      EventReferencesAreNamed(event, r);
      StoredResolves(s, r);
    }
  }

  /** After any run of imports, whatever a stored document or event names is stored under that kind. */
  lemma StoresAreWhole(bundles: seq<Bundle>)
    requires forall b :: b in bundles ==> ValidBundle(b)
    ensures var s := Run(bundles);
      && (forall d :: d in s.manifests ==> DocumentWhole(s.manifests[d].document, Stored(s)))
      && (forall e :: e in s.events ==> EventWhole(s.events[e].event, Stored(s)))
  {
    hide Run, Sound, DocumentWhole, EventWhole;
    RunIsSound(bundles);
    var s := Run(bundles);
    forall d | d in s.manifests ensures DocumentWhole(s.manifests[d].document, Stored(s)) {
      StoredDocumentIsWhole(s, d);
    }
    forall e | e in s.events ensures EventWhole(s.events[e].event, Stored(s)) {
      StoredEventIsWhole(s, e);
    }
  }

  // Exports

  /** The documents include the roots, are the stored ones, and include whatever they name. */
  ghost predicate Whole(s: Catalog, roots: set<Ref>, documents: map<Digest, Document>) {
    && roots <= Carried(Bundle(documents, map[]))
    && (forall d :: d in documents ==> d in s.manifests && documents[d] == s.manifests[d].document)
    && (forall d :: d in documents ==> DocumentWhole(documents[d], Carried(Bundle(documents, map[]))))
  }

  /** So do those of an export, and its events are exactly the stored ones that name nothing else. */
  ghost predicate WholeExport(s: Catalog, roots: set<Ref>, includeEvents: bool, b: Bundle) {
    && Whole(s, roots, b.documents)
    && (forall e :: e in b.events ==> e in s.events && b.events[e] == s.events[e].event)
    && (forall e :: e in s.events ==> (e in b.events <==> includeEvents && EventWhole(s.events[e].event, Carried(b))))
  }

  lemma SameCarried(b: Bundle)
    ensures Carried(b) == Carried(Bundle(b.documents, map[]))
  {
  }

  lemma ClosureIsWhole(s: Catalog, roots: set<Ref>)
    requires Sound(s)
    ensures Exportable(s, roots) ==> Whole(s, roots, Closure(s, roots))
  {
    hide DocumentWhole, Closure, Sound, Exportable;
    if Exportable(s, roots) {
      var b := Bundle(Closure(s, roots), map[]);
      forall d | d in b.documents
        ensures d in s.manifests && b.documents[d] == s.manifests[d].document
        ensures DocumentWhole(b.documents[d], Carried(b))
      {
        ExportedDocumentIsWhole(s, roots, d, b);
      }
      forall r | r in roots ensures r in Carried(b) {
        RootIsCarried(s, roots, r, b);
      }
    }
  }

  /** An export is whole: the documents of the roots, what they name, and so on, and exactly the events that name
      nothing else. */
  lemma ExportIsWhole(s: Catalog, roots: set<Ref>, includeEvents: bool)
    requires Sound(s)
    ensures Exportable(s, roots) ==> WholeExport(s, roots, includeEvents, ExportOf(s, roots, includeEvents))
  {
    hide EventWhole, Closure, Covered, Sound, Exportable, Whole;
    ClosureIsWhole(s, roots);
    var b := ExportOf(s, roots, includeEvents);
    SameCarried(b);
    forall e | e in s.events
      ensures Covered(s.events[e].event, b.documents) <==> EventWhole(s.events[e].event, Carried(b))
    {
      CoveredIsWhole(s, roots, e, b);
    }
  }

  lemma ExportedDocumentIsWhole(s: Catalog, roots: set<Ref>, d: Digest, b: Bundle)
    requires Sound(s) && Exportable(s, roots) && b.documents == Closure(s, roots) && d in b.documents
    ensures d in s.manifests && b.documents[d] == s.manifests[d].document && DocumentWhole(b.documents[d], Carried(b))
  {
    hide DocumentNames, DocumentReferences, Exportable;
    var document := b.documents[d];
    assert DocumentInPlace(s, d);
    forall r | DocumentNames(document, r) ensures r in Carried(b) {
      DocumentReferencesAreNamed(document, r);
      ClosureIsClosed(s, roots, d, r);
    }
    PreviousIsNamed(document);
  }

  lemma RootIsCarried(s: Catalog, roots: set<Ref>, r: Ref, b: Bundle)
    requires Sound(s) && Exportable(s, roots) && b.documents == Closure(s, roots) && r in roots
    ensures r in Carried(b)
  {
    hide Sound, Carried, Closure, Exportable, Reached;
    RootsReached(s, roots);
    ReachedIsCarried(s, roots, r, b);
  }

  lemma ReachedIsCarried(s: Catalog, roots: set<Ref>, r: Ref, b: Bundle)
    requires Sound(s) && Exportable(s, roots) && b.documents == Closure(s, roots) && Reached(s, roots, r)
    ensures r.digest in b.documents && r in Carried(b)
  {
    hide Sound, Reached;
    assert Resolves(s, r) && DigestReached(s, roots, r.digest);
    StoredKind(s, r);
  }

  lemma CoveredIsWhole(s: Catalog, roots: set<Ref>, e: Digest, b: Bundle)
    requires Sound(s) && b.documents == Closure(s, roots) && e in s.events
    ensures Covered(s.events[e].event, b.documents) <==> EventWhole(s.events[e].event, Carried(b))
  {
    hide EventNames, EventReferences;
    var event := s.events[e].event;
    assert EventInPlace(s, e);
    forall r | r in EventReferences(event) ensures r.digest in b.documents <==> r in Carried(b) {
      assert Resolves(s, r);
      StoredKind(s, r);
    }
    forall r ensures r in EventReferences(event) <==> EventNames(event, r) {
      EventReferencesAreNamed(event, r);
    }
  }

  /** Every document of an export is a root, or named by another document of it. */
  lemma ExportHoldsNoOther(s: Catalog, roots: set<Ref>, r: Ref)
    requires Sound(s) && Exportable(s, roots) && r in Carried(ExportOf(s, roots, false))
    ensures var b := ExportOf(s, roots, false);
      r in roots || exists d :: d in b.documents && DocumentNames(b.documents[d], r)
  {
    hide DocumentNames, DocumentReferences, Sound, Reached, Exportable;
    var b := ExportOf(s, roots, false);
    var to :| Reached(s, roots, to) && to.digest == r.digest;
    ReachedIsCarried(s, roots, to, b);
    ReachedResolves(s, roots, to);
    assert to == r by { StoredKind(s, to); }
    if r !in roots {
      var from := ReachedBefore(s, roots, r);
      ReachedIsCarried(s, roots, from, b);
      ReachedResolves(s, roots, from);
      StoredIsValid(s, from.digest);
      DocumentReferencesAreNamed(b.documents[from.digest], r);
    }
  }

  lemma StoredIsValid(s: Catalog, d: Digest)
    requires Sound(s) && d in s.manifests
    ensures ValidDocument(s.manifests[d].document)
  {
    assert DocumentInPlace(s, d);
  }

  lemma ReachedResolves(s: Catalog, roots: set<Ref>, r: Ref)
    requires Exportable(s, roots) && Reached(s, roots, r)
    ensures Resolves(s, r)
  {
  }

  /** What is reached and is no root is named by something reached. */
  lemma ReachedBefore(s: Catalog, roots: set<Ref>, r: Ref) returns (from: Ref)
    requires Reached(s, roots, r) && r !in roots
    ensures Reached(s, roots, from) && r in Next(s, from)
  {
    hide Next;
    var path :| Trail(s, path) && path[0] in roots && path[|path| - 1] == r;
    var shorter := path[..|path| - 1];
    from := shorter[|shorter| - 1];
    assert Trail(s, shorter);
    assert path[(|path| - 2) + 1] in Next(s, path[|path| - 2]);
  }

  // Imports

  /** The outcome an event reports, among the bundle's documents or the stored ones, is about the event's own
      episode. */
  predicate ReportsItsEpisode(s: Catalog, b: Bundle, e: Event) {
    e.core.kind.OutcomeEvent? && e.core.outcome.Some? ==>
      var digest := e.core.outcome.value.digest;
      && (digest in b.documents || digest in s.manifests)
      && var body := if digest in b.documents then b.documents[digest].body else s.manifests[digest].document.body;
      && body.Outcome? && e.core.episode == Some(body.episode)
  }

  /** An outcome event of this episode. */
  predicate ReportsOn(e: Event, episode: Ref) {
    e.core.kind == OutcomeEvent && e.core.episode.Some? && e.core.episode.value.digest == episode.digest
  }

  lemma ReportsAreRows(s: Catalog, episode: Ref)
    requires Sound(s)
    ensures forall e :: e in s.events ==> (ReportsOn(s.events[e].event, episode) <==> e in OutcomeEventOf(s, episode))
  {
    hide EventReferences, Resolves;
    forall e | e in s.events
      ensures ReportsOn(s.events[e].event, episode) <==> e in OutcomeEventOf(s, episode)
    {
      assert EventInPlace(s, e);
    }
  }

  predicate RivalOutcomes(e: Event, f: Event) {
    && e.core.kind.OutcomeEvent? && f.core.kind.OutcomeEvent? && e.core.episode.Some? && f.core.episode.Some?
    && e.core.episode.value.digest == f.core.episode.value.digest
  }

  /** No episode gets a second outcome event. */
  ghost predicate NoRivals(s: Catalog, b: Bundle) {
    && (forall e, f :: e in b.events && f in b.events && e != f ==> !RivalOutcomes(b.events[e], b.events[f]))
    && (forall e, f :: e in b.events && f in s.events && e != f ==> !RivalOutcomes(b.events[e], s.events[f].event))
  }

  /** Everything the documents and events name is stored or carried, under the kind named, every outcome event reports
      its own episode, and no episode gets a second outcome. */
  ghost predicate Takes(s: Catalog, b: Bundle) {
    && (forall d :: d in b.documents ==> DocumentWhole(b.documents[d], Stored(s) + Carried(b)))
    && (forall e :: e in b.events ==>
          EventWhole(b.events[e], Stored(s) + Carried(b)) && ReportsItsEpisode(s, b, b.events[e]))
    && NoRivals(s, b)
  }

  /** A sound store accepts exactly the bundles it takes. */
  lemma TakesExactly(s: Catalog, b: Bundle)
    requires ValidBundle(b)
    ensures Sound(s) ==> (Accepts(s, b) <==> Takes(s, b))
  {
    hide Sound, ValidBundle, Accepts, Takes;
    if Sound(s) {
      AcceptedExactly(s, b);
    }
  }

  lemma AcceptedExactly(s: Catalog, b: Bundle)
    requires Sound(s) && ValidBundle(b)
    ensures Accepts(s, b) <==> Takes(s, b)
  {
    hide Sound, ValidBundle, DocumentWhole, EventWhole, Available, ReportsItsEpisode, OutcomeAgrees, EventResolves,
      NoRivals, EventsFit, DocumentReferences, KindsAgree, DocumentsFit;
    OnlyThreeRefusals(s, b);
    forall d | d in b.documents
      ensures DocumentWhole(b.documents[d], Stored(s) + Carried(b)) <==>
              forall r :: r in DocumentReferences(b.documents[d]) ==> Available(s, b, r)
    {
      IncomingIsWhole(s, b, d);
    }
    forall e | e in b.events
      ensures EventWhole(b.events[e], Stored(s) + Carried(b)) <==> EventResolves(s, b, b.events[e])
      ensures EventResolves(s, b, b.events[e]) ==>
                (ReportsItsEpisode(s, b, b.events[e]) <==> OutcomeAgrees(s, b, b.events[e]))
    {
      IncomingEventIsWhole(s, b, e);
    }
    RivalsFit(s, b);
  }

  lemma AvailableIsThere(s: Catalog, b: Bundle, r: Ref)
    requires KindsAgree(s, b)
    ensures Available(s, b, r) <==> r in Stored(s) + Carried(b)
  {
  }

  lemma IncomingIsWhole(s: Catalog, b: Bundle, d: Digest)
    requires ValidBundle(b) && KindsAgree(s, b) && d in b.documents
    ensures DocumentWhole(b.documents[d], Stored(s) + Carried(b)) <==>
            forall r :: r in DocumentReferences(b.documents[d]) ==> Available(s, b, r)
  {
    hide DocumentNames, DocumentReferences, Available, KindsAgree;
    var document := b.documents[d];
    forall r
      ensures r in DocumentReferences(document) <==> DocumentNames(document, r)
      ensures Available(s, b, r) <==> r in Stored(s) + Carried(b)
    {
      DocumentReferencesAreNamed(document, r);
      AvailableIsThere(s, b, r);
    }
    PreviousIsNamed(document);
  }

  lemma IncomingEventIsWhole(s: Catalog, b: Bundle, e: Digest)
    requires ValidBundle(b) && KindsAgree(s, b) && e in b.events
    ensures EventWhole(b.events[e], Stored(s) + Carried(b)) <==> EventResolves(s, b, b.events[e])
    ensures EventResolves(s, b, b.events[e]) ==>
              (ReportsItsEpisode(s, b, b.events[e]) <==> OutcomeAgrees(s, b, b.events[e]))
  {
    hide EventNames, EventReferences, Available, KindsAgree;
    var event := b.events[e];
    forall r
      ensures r in EventReferences(event) <==> EventNames(event, r)
      ensures Available(s, b, r) <==> r in Stored(s) + Carried(b)
    {
      EventReferencesAreNamed(event, r);
      AvailableIsThere(s, b, r);
    }
    assert event.core.outcome.Some? ==> EventNames(event, event.core.outcome.value) by { OutcomeIsNamed(event); }
  }

  lemma OutcomeIsNamed(e: Event)
    ensures e.core.outcome.Some? ==> EventNames(e, e.core.outcome.value)
  {
  }

  lemma RivalsFit(s: Catalog, b: Bundle)
    requires Sound(s) && ValidBundle(b)
    ensures EventsFit(s, b) <==> NoRivals(s, b)
  {
    hide Sound, ValidBundle;
    if EventsFit(s, b) {
      FittingHasNoRivals(s, b);
    }
    if NoRivals(s, b) {
      WithoutRivalsFits(s, b);
    }
  }

  lemma FittingHasNoRivals(s: Catalog, b: Bundle)
    requires Sound(s) && ValidBundle(b) && EventsFit(s, b)
    ensures NoRivals(s, b)
  {
    hide EventReferences, Resolves, DocumentInPlace, ValidDocument;
    assert forall f :: f in s.events ==> EventInPlace(s, f);
    forall e, f | e in b.events && f in s.events && e != f ensures !RivalOutcomes(b.events[e], s.events[f].event) {
      assert EventFits(s.events, b.events[e]);
    }
    forall e, f | e in b.events && f in b.events && e != f ensures !RivalOutcomes(b.events[e], b.events[f]) {
      assert EventFits(s.events, b.events[e]) && EventFits(s.events, b.events[f]);
    }
  }

  lemma WithoutRivalsFits(s: Catalog, b: Bundle)
    requires Sound(s) && ValidBundle(b) && NoRivals(s, b)
    ensures EventsFit(s, b)
  {
    hide EventReferences, Resolves, DocumentInPlace, ValidDocument;
    assert forall f :: f in s.events ==> EventInPlace(s, f);
    forall e | e in b.events ensures EventFits(s.events, b.events[e]) {
      if e !in s.events {
        forall k | k in s.events && b.events[e].core.kind.OutcomeEvent?
          ensures !IsOutcomeOf(s.events[k], RowOfEvent(b.events[e]).episode)
        {
          assert !RivalOutcomes(b.events[e], s.events[k].event);
        }
      }
    }
  }
}

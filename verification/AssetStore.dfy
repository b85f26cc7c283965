/** `AdaptiveAssetStore` of src/aar/assets.py, each method specified by a function of the catalog held before. */
module AssetStore {
  import opened JsonValues
  import opened AssetModels
  import opened AssetCatalog
  import opened AssetReferences

  datatype AssetError = AssetConflict | ReferenceMissing | NotFound | WrongKind

  datatype ImportResult = ImportResult(assetCount: nat, eventCount: nat)

  datatype Observation = Unknown | Observed(outcome: Ref)

  class Store {
    var bodies: map<Digest, BodyRow>
    var manifests: map<Digest, ManifestRow>
    var events: map<Digest, EventRow>

    constructor ()
      ensures State() == EMPTY
    {
      bodies, manifests, events := map[], map[], map[];
    }

    function State(): Catalog
      reads this
    {
      Catalog(bodies, manifests, events)
    }

    method Get(reference: Ref) returns (r: Result<Document, AssetError>)
      ensures r.Ok? <==> Resolves(State(), reference)
      ensures r.Ok? ==> r.value == manifests[reference.digest].document
      ensures r == Err(NotFound) <==> reference.digest !in manifests
    {
      if reference.digest !in manifests {
        return Err(NotFound);
      }
      if manifests[reference.digest].kind != reference.kind {
        return Err(AssetConflict);
      }
      return Ok(manifests[reference.digest].document);
    }

    // Import

    method CheckKinds(b: Bundle) returns (ok: bool)
      ensures ok <==> KindsAgree(State(), b)
    {
      var todo := b.documents.Keys;
      while todo != {}
        invariant todo <= b.documents.Keys
        invariant forall d :: d in b.documents && d !in todo && d in manifests ==>
                    manifests[d].kind == b.documents[d].manifest.asset.kind
      {
        var d :| d in todo;
        if d in manifests && manifests[d].kind != b.documents[d].manifest.asset.kind {
          return false;
        }
        todo := todo - {d};
      }
      return true;
    }

    method CheckReferences(b: Bundle, references: set<Ref>) returns (ok: bool)
      ensures ok <==> forall r :: r in references ==> Available(State(), b, r)
    {
      var todo := references;
      while todo != {}
        invariant todo <= references
        invariant forall r :: r in references && r !in todo ==> Available(State(), b, r)
      {
        var r :| r in todo;
        if !Available(State(), b, r) {
          return false;
        }
        todo := todo - {r};
      }
      return true;
    }

    method CheckDocuments(b: Bundle) returns (ok: bool)
      ensures ok <==> DocumentsResolve(State(), b)
    {
      var todo := b.documents.Keys;
      while todo != {}
        invariant todo <= b.documents.Keys
        invariant forall d :: d in b.documents && d !in todo ==>
                    forall r :: r in DocumentReferences(b.documents[d]) ==> Available(State(), b, r)
      {
        var d :| d in todo;
        var resolved := CheckReferences(b, DocumentReferences(b.documents[d]));
        if !resolved {
          return false;
        }
        todo := todo - {d};
      }
      return true;
    }

    method ValidateOutcomeEvent(e: Event, b: Bundle) returns (r: Result<(), AssetError>)
      requires ValidEvent(e) && EventResolves(State(), b, e)
      ensures r.Ok? <==> OutcomeAgrees(State(), b, e)
      ensures r.Err? ==> r.error == AssetConflict
    {
      if !e.core.kind.OutcomeEvent? {
        return Ok(());
      }
      var outcome := e.core.outcome.value;
      assert outcome in EventReferences(e);
      var document;
      if outcome.digest in b.documents {
        document := b.documents[outcome.digest];
      } else {
        var stored := Get(outcome);
        document := stored.value;
      }
      if !document.body.Outcome? {
        return Err(AssetConflict);
      }
      if document.body.episode != e.core.episode.value {
        return Err(AssetConflict);
      }
      return Ok(());
    }

    method CheckEvents(b: Bundle) returns (r: Result<(), AssetError>)
      requires ValidBundle(b)
      ensures r.Ok? <==> EventsAgree(State(), b)
      ensures r.Err? ==> r.error in {ReferenceMissing, AssetConflict}
      ensures r == Err(ReferenceMissing) ==> exists e :: e in b.events && !EventResolves(State(), b, b.events[e])
    {
      var todo := b.events.Keys;
      while todo != {}
        invariant todo <= b.events.Keys
        invariant forall e :: e in b.events && e !in todo ==>
                    EventResolves(State(), b, b.events[e]) && OutcomeAgrees(State(), b, b.events[e])
      {
        var e :| e in todo;
        var resolved := CheckReferences(b, EventReferences(b.events[e]));
        if !resolved {
          return Err(ReferenceMissing);
        }
        var agrees := ValidateOutcomeEvent(b.events[e], b);
        if agrees.Err? {
          return Err(agrees.error);
        }
        todo := todo - {e};
      }
      return Ok(());
    }

    method InsertDocument(d: Document) returns (ok: bool)
      requires ValidDocument(d) && ForeignKeys(State())
      modifies this
      ensures ok <==> DocumentFits(old(State()), d)
      ensures ok ==> State() == WithDocument(old(State()), d) && ForeignKeys(State())
    {
      var bodyDigest, digest := d.manifest.bodyDigest, d.manifest.manifestDigest;
      if bodyDigest in bodies && bodies[bodyDigest] != RowOfBody(d) {
        return false;
      }
      if digest in manifests {
        return manifests[digest] == RowOfDocument(d);
      }
      if bodyDigest !in bodies {
        bodies := bodies[bodyDigest := RowOfBody(d)];
      }
      manifests := manifests[digest := RowOfDocument(d)];
      return true;
    }

    method InsertDocuments(documents: map<Digest, Document>) returns (ok: bool)
      requires ValidBundle(Bundle(documents, map[])) && ForeignKeys(State())
      modifies this
      ensures ok <==> DocumentsFit(old(State()), Bundle(documents, map[]))
      ensures ok ==> State() == Grown(old(State()), documents, map[]) && ForeignKeys(State())
    {
      hide *;
      ghost var before := State();
      var todo := documents.Keys;
      ghost var done: map<Digest, Document> := map[];
      DocumentsStart(before, documents);
      while todo != {}
        invariant Split(documents, todo, done)
        invariant State() == Grown(before, done, map[]) && ForeignKeys(State())
        invariant DocumentsFit(before, Bundle(done, map[]))
      {
        var d :| d in todo;
        DocumentsStep(before, documents, todo, done, d);
        var fits := InsertDocument(documents[d]);
        if !fits {
          return false;
        }
        todo := todo - {d};
        done := done[d := documents[d]];
      }
      SplitDone(documents, done);
      return true;
    }

    method InsertEvent(e: Event) returns (ok: bool)
      requires ValidEvent(e) && ForeignKeys(State())
      modifies this`events
      ensures ok <==> EventFits(old(State()).events, e)
      ensures ok ==> State() == WithEvent(old(State()), e) && ForeignKeys(State())
    {
      if e.eventDigest in events {
        return events[e.eventDigest] == RowOfEvent(e);
      }
      if e.core.kind.OutcomeEvent? && exists k :: k in events && IsOutcomeOf(events[k], RowOfEvent(e).episode) {
        return false;
      }
      events := events[e.eventDigest := RowOfEvent(e)];
      return true;
    }

    method InsertEvents(b: Bundle) returns (ok: bool)
      requires ValidBundle(b) && ForeignKeys(State())
      modifies this`events
      ensures ok <==> EventsFit(old(State()), b)
      ensures ok ==> State() == Grown(old(State()), map[], b.events) && ForeignKeys(State())
    {
      hide *;
      ghost var before := State();
      var todo := b.events.Keys;
      ghost var done: map<Digest, Event> := map[];
      EventsStart(before, b.events);
      while todo != {}
        invariant Split(b.events, todo, done)
        invariant State() == Grown(before, map[], done) && ForeignKeys(State())
        invariant EventsFit(before, Bundle(map[], done))
      {
        var e :| e in todo;
        EventsStep(before, b, todo, done, e);
        var fits := InsertEvent(b.events[e]);
        if !fits {
          return false;
        }
        todo := todo - {e};
        done := done[e := b.events[e]];
      }
      SplitDone(b.events, done);
      EventsFitSame(before, b);
      return true;
    }

    /** One transaction: an import that is refused changes nothing. */
    method ImportBundle(b: Bundle) returns (r: Result<ImportResult, AssetError>)
      requires ValidBundle(b) && ForeignKeys(State())
      modifies this
      ensures r.Ok? <==> Accepts(old(State()), b)
      ensures old(Sound(State())) ==> (r.Ok? <==> Takes(old(State()), b))
      ensures State() == ImportInto(old(State()), b)
      ensures r.Ok? ==> r.value == ImportResult(|b.documents|, |b.events|)
      ensures r == Err(ReferenceMissing) ==>
                || !DocumentsResolve(old(State()), b)
                || exists e :: e in b.events && !EventResolves(old(State()), b, b.events[e])
      ensures ForeignKeys(State())
    {
      hide Accepts, ImportInto, After, Grown, KindsAgree, DocumentsResolve, EventsAgree, DocumentsFit, EventsFit,
        ForeignKeys, ValidBundle, Sound, Takes;
      ImportSteps(State(), b);
      TakesExactly(State(), b);
      var kindsAgree := CheckKinds(b);
      if !kindsAgree {
        return Err(AssetConflict);
      }
      var resolved := CheckDocuments(b);
      if !resolved {
        return Err(ReferenceMissing);
      }
      var eventsAgree := CheckEvents(b);
      if eventsAgree.Err? {
        return Err(eventsAgree.error);
      }
      var savedBodies, savedManifests, savedEvents := bodies, manifests, events;
      var documentsInserted := InsertDocuments(b.documents);
      if !documentsInserted {
        bodies, manifests, events := savedBodies, savedManifests, savedEvents;
        return Err(AssetConflict);
      }
      var eventsInserted := InsertEvents(b);
      if !eventsInserted {
        bodies, manifests, events := savedBodies, savedManifests, savedEvents;
        return Err(AssetConflict);
      }
      return Ok(ImportResult(|b.documents|, |b.events|));
    }

    method Put(document: Document) returns (r: Result<Ref, AssetError>)
      requires ValidDocument(document) && ForeignKeys(State())
      modifies this
      ensures State() == ImportInto(old(State()), Bundle(map[document.manifest.asset.digest := document], map[]))
      ensures r.Ok? <==> Accepts(old(State()), Bundle(map[document.manifest.asset.digest := document], map[]))
      ensures r.Ok? ==> r.value == document.manifest.asset
      ensures ForeignKeys(State())
    {
      var imported := ImportBundle(Bundle(map[document.manifest.asset.digest := document], map[]));
      if imported.Err? {
        return Err(imported.error);
      }
      return Ok(document.manifest.asset);
    }

    method AppendEvent(e: Event) returns (r: Result<(), AssetError>)
      requires ValidEvent(e) && ForeignKeys(State())
      modifies this
      ensures State() == ImportInto(old(State()), Bundle(map[], map[e.eventDigest := e]))
      ensures r.Ok? <==> Accepts(old(State()), Bundle(map[], map[e.eventDigest := e]))
      ensures ForeignKeys(State())
    {
      var imported := ImportBundle(Bundle(map[], map[e.eventDigest := e]));
      if imported.Err? {
        return Err(imported.error);
      }
      return Ok(());
    }

    // Reads

    method Outcome(episode: Ref) returns (r: Result<Observation, AssetError>)
      requires Sound(State())
      ensures r == Err(WrongKind) <==> !episode.kind.EpisodeKind?
      ensures r.Ok? <==> episode.kind.EpisodeKind? && Resolves(State(), episode)
      ensures r.Ok? && r.value.Unknown? ==> forall e :: e in events ==> !ReportsOn(events[e].event, episode)
      ensures r.Ok? && r.value.Observed? ==>
                exists e | e in events ::
                  && ReportsOn(events[e].event, episode) && events[e].event.core.outcome == Some(r.value.outcome)
                  && forall f :: f in events && ReportsOn(events[f].event, episode) ==> f == e
    {
      if !episode.kind.EpisodeKind? {
        return Err(WrongKind);
      }
      if episode.digest !in manifests || manifests[episode.digest].kind != episode.kind {
        return Err(ReferenceMissing);
      }
      var rows := OutcomeEventOf(State(), episode);
      ReportsAreRows(State(), episode);
      if rows == {} {
        return Ok(Unknown);
      }
      var e :| e in rows;
      assert EventInPlace(State(), e);
      assert rows == {e};
      return Ok(Observed(events[e].event.core.outcome.value));
    }

    method Enumerate(references: set<Ref>) returns (listed: seq<Ref>)
      ensures forall r :: r in listed <==> r in references
    {
      listed := [];
      var todo := references;
      while todo != {}
        invariant todo <= references
        invariant forall r :: r in listed <==> r in references - todo
      {
        var r :| r in todo;
        listed, todo := listed + [r], todo - {r};
      }
    }

    /** The worklist: everything the roots reach, once. */
    method CollectDocuments(roots: set<Ref>) returns (r: Result<map<Digest, Document>, AssetError>)
      requires Sound(State())
      ensures r.Ok? <==> Exportable(State(), roots)
      ensures r.Ok? ==> r.value == Closure(State(), roots)
      ensures r.Ok? ==> Whole(State(), roots, r.value)
    {
      hide Collecting, Sound, Exportable, Closure, Whole;
      var documents: map<Digest, Document> := map[];
      var pending := Enumerate(roots);
      CollectingStarts(State(), roots, pending);
      while pending != []
        invariant Collecting(State(), roots, documents, pending)
        decreases State().manifests.Keys - documents.Keys, |pending|
      {
        var reference := pending[|pending| - 1];
        var fewer := pending[..|pending| - 1];
        CollectingReference(State(), roots, documents, pending);
        if reference.digest in documents {
          if documents[reference.digest].manifest.asset.kind != reference.kind {
            return Err(AssetConflict);
          }
          CollectingSkips(State(), roots, documents, pending);
          pending := fewer;
          continue;
        }
        var document := Get(reference);
        if document.Err? {
          return Err(document.error);
        }
        var more := Enumerate(DocumentReferences(document.value));
        CollectingGoesOn(State(), roots, documents, pending, more);
        FewerLeft(State().manifests.Keys, documents, reference.digest, document.value);
        documents := documents[reference.digest := document.value];
        pending := fewer + more;
      }
      CollectedIsClosure(State(), roots, documents);
      ClosureIsWhole(State(), roots);
      return Ok(documents);
    }

    method ExportBundle(roots: set<Ref>, includeEvents: bool) returns (r: Result<Bundle, AssetError>)
      requires Sound(State())
      ensures r.Ok? <==> Exportable(State(), roots)
      ensures r.Ok? ==> r.value == ExportOf(State(), roots, includeEvents)
      ensures r.Ok? ==> WholeExport(State(), roots, includeEvents, r.value)
    {
      hide Sound, Exportable, Closure, Whole, WholeExport, CoveredEvents;
      ExportIsWhole(State(), roots, includeEvents);
      var documents := CollectDocuments(roots);
      if documents.Err? {
        return Err(documents.error);
      }
      if includeEvents {
        return Ok(Bundle(documents.value, CoveredEvents(State(), documents.value)));
      }
      return Ok(Bundle(documents.value, map[]));
    }
  }
}

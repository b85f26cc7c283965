/** The content of an asset store as a value: what an import does to it, and what an export takes
    from it. The laws of both are in `AssetLaws`. */
module AssetCatalog {
  import opened JsonValues
  import opened AssetModels

  datatype BodyRow = BodyRow(kind: Kind, body: Body)
  datatype ManifestRow = ManifestRow(kind: Kind, bodyDigest: Digest, document: Document)
  datatype EventRow = EventRow(kind: EventKind, episode: Option<Digest>, event: Event)

  /** The three tables, by primary key. */
  datatype Catalog = Catalog(
    bodies: map<Digest, BodyRow>, manifests: map<Digest, ManifestRow>, events: map<Digest, EventRow>)

  const EMPTY := Catalog(map[], map[], map[])

  function RowOfBody(d: Document): BodyRow {
    BodyRow(KindOf(d.body), d.body)
  }

  function RowOfDocument(d: Document): ManifestRow {
    ManifestRow(d.manifest.asset.kind, d.manifest.bodyDigest, d)
  }

  function RowOfEvent(e: Event): EventRow {
    EventRow(e.core.kind, if e.core.episode.Some? then Some(e.core.episode.value.digest) else None, e)
  }

  /** The one foreign key: the body of every manifest is there. */
  predicate ForeignKeys(s: Catalog) {
    forall d :: d in s.manifests ==> s.manifests[d].bodyDigest in s.bodies
  }

  // Import

  /** `available`: the kinds by digest, once the incoming documents are counted in. */
  predicate Available(s: Catalog, b: Bundle, r: Ref) {
    if r.digest in b.documents then b.documents[r.digest].manifest.asset.kind == r.kind
    else r.digest in s.manifests && s.manifests[r.digest].kind == r.kind
  }

  predicate KindsAgree(s: Catalog, b: Bundle) {
    forall d :: d in b.documents && d in s.manifests ==> s.manifests[d].kind == b.documents[d].manifest.asset.kind
  }

  predicate DocumentsResolve(s: Catalog, b: Bundle) {
    forall d :: d in b.documents ==> forall r :: r in DocumentReferences(b.documents[d]) ==> Available(s, b, r)
  }

  predicate EventResolves(s: Catalog, b: Bundle, e: Event) {
    forall r :: r in EventReferences(e) ==> Available(s, b, r)
  }

  /** The document an outcome event points at: an incoming one first. */
  function Pointed(s: Catalog, b: Bundle, r: Ref): Document
    requires Available(s, b, r)
  {
    if r.digest in b.documents then b.documents[r.digest] else s.manifests[r.digest].document
  }

  /** `_validate_outcome_event`. */
  predicate OutcomeAgrees(s: Catalog, b: Bundle, e: Event)
    requires EventResolves(s, b, e)
  {
    e.core.kind.OutcomeEvent? ==>
      && e.core.episode.Some? && e.core.outcome.Some?
      && var body := Pointed(s, b, e.core.outcome.value).body;
         body.Outcome? && body.episode == e.core.episode.value
  }

  predicate EventsAgree(s: Catalog, b: Bundle) {
    forall e :: e in b.events ==> EventResolves(s, b, b.events[e]) && OutcomeAgrees(s, b, b.events[e])
  }

  /** `_insert_document` finds no row that binds other bytes. */
  predicate DocumentFits(s: Catalog, d: Document) {
    && (d.manifest.bodyDigest in s.bodies ==> s.bodies[d.manifest.bodyDigest] == RowOfBody(d))
    && (d.manifest.manifestDigest in s.manifests ==> s.manifests[d.manifest.manifestDigest] == RowOfDocument(d))
  }

  predicate DocumentsFit(s: Catalog, b: Bundle) {
    forall d :: d in b.documents ==> DocumentFits(s, b.documents[d])
  }

  predicate IsOutcomeOf(row: EventRow, episode: Option<Digest>) {
    row.kind.OutcomeEvent? && row.episode == episode
  }

  /** `_insert_event` finds no row that binds other bytes, nor another outcome of the episode. */
  predicate EventFits(events: map<Digest, EventRow>, e: Event) {
    if e.eventDigest in events then events[e.eventDigest] == RowOfEvent(e)
    else e.core.kind.OutcomeEvent? ==> forall k :: k in events ==> !IsOutcomeOf(events[k], RowOfEvent(e).episode)
  }

  predicate EventsFit(s: Catalog, b: Bundle) {
    && (forall e :: e in b.events ==> EventFits(s.events, b.events[e]))
    && (forall e, f | e in b.events && f in b.events && e != f && e !in s.events && f !in s.events ::
          b.events[e].core.kind.OutcomeEvent? ==>
            !IsOutcomeOf(RowOfEvent(b.events[f]), RowOfEvent(b.events[e]).episode))
  }

  predicate Accepts(s: Catalog, b: Bundle) {
    KindsAgree(s, b) && DocumentsResolve(s, b) && EventsAgree(s, b) && DocumentsFit(s, b) && EventsFit(s, b)
  }

  function BodyDigests(documents: map<Digest, Document>): set<Digest> {
    set d | d in documents :: documents[d].manifest.bodyDigest
  }

  function BodyRows(documents: map<Digest, Document>): map<Digest, BodyRow> {
    map k | k in BodyDigests(documents) && k.OfBody? :: BodyRow(KindOf(k.body), k.body)
  }

  function DocumentRows(documents: map<Digest, Document>): map<Digest, ManifestRow> {
    map d | d in documents :: RowOfDocument(documents[d])
  }

  function EventRows(events: map<Digest, Event>): map<Digest, EventRow> {
    map e | e in events :: RowOfEvent(events[e])
  }

  function Grown(s: Catalog, documents: map<Digest, Document>, events: map<Digest, Event>): Catalog {
    Catalog(s.bodies + BodyRows(documents), s.manifests + DocumentRows(documents), s.events + EventRows(events))
  }

  /** The catalog after an accepted import. */
  function After(s: Catalog, b: Bundle): Catalog {
    Grown(s, b.documents, b.events)
  }

  function WithDocument(s: Catalog, d: Document): Catalog {
    s.(bodies := s.bodies[d.manifest.bodyDigest := RowOfBody(d)],
       manifests := s.manifests[d.manifest.manifestDigest := RowOfDocument(d)])
  }

  function WithEvent(s: Catalog, e: Event): Catalog {
    s.(events := s.events[e.eventDigest := RowOfEvent(e)])
  }

  function ImportInto(s: Catalog, b: Bundle): Catalog {
    if Accepts(s, b) then After(s, b) else s
  }

  /** The catalog after any sequence of imports, refused ones included. */
  function Run(bundles: seq<Bundle>): Catalog {
    if bundles == [] then EMPTY else ImportInto(Run(bundles[..|bundles| - 1]), bundles[|bundles| - 1])
  }

  // One row at a time

  lemma OverlayOne<K, V>(m: map<K, V>, n: map<K, V>, k: K, v: V)
    ensures (m + n)[k := v] == m + n[k := v]
  {
  }

  lemma DocumentRowsOneMore(done: map<Digest, Document>, d: Document)
    requires d.manifest.asset.digest !in done && ValidManifest(d.manifest)
    ensures DocumentRows(done[d.manifest.asset.digest := d]) ==
            DocumentRows(done)[d.manifest.manifestDigest := RowOfDocument(d)]
  {
  }

  lemma BodyRowsOneMore(done: map<Digest, Document>, d: Document)
    requires d.manifest.asset.digest !in done && ValidDocument(d)
    ensures BodyRows(done[d.manifest.asset.digest := d]) == BodyRows(done)[d.manifest.bodyDigest := RowOfBody(d)]
  {
    var more := done[d.manifest.asset.digest := d];
    forall k | k in BodyDigests(done) + {d.manifest.bodyDigest}
      ensures k in BodyDigests(more)
    {
      if k == d.manifest.bodyDigest {
        assert more[d.manifest.asset.digest].manifest.bodyDigest == k;
      } else {
        var j :| j in done && done[j].manifest.bodyDigest == k;
        assert more[j].manifest.bodyDigest == k;
      }
    }
  }

  lemma EventRowsOneMore(done: map<Digest, Event>, e: Event)
    requires e.eventDigest !in done
    ensures EventRows(done[e.eventDigest := e]) == EventRows(done)[e.eventDigest := RowOfEvent(e)]
  {
  }

  /** Inserting one more document grows the catalog by it, and rows inserted earlier by the same
      import are no conflict. */
  lemma OneMoreDocument(s: Catalog, done: map<Digest, Document>, d: Document)
    requires ValidBundle(Bundle(done, map[])) && ValidDocument(d)
    requires forall k :: k in done ==> DocumentFits(s, done[k])
    requires d.manifest.asset.digest !in done
    ensures WithDocument(Grown(s, done, map[]), d) == Grown(s, done[d.manifest.asset.digest := d], map[])
    ensures DocumentFits(Grown(s, done, map[]), d) <==> DocumentFits(s, d)
  {
    BodyRowsOneMore(done, d);
    DocumentRowsOneMore(done, d);
    OverlayOne(s.bodies, BodyRows(done), d.manifest.bodyDigest, RowOfBody(d));
    OverlayOne(s.manifests, DocumentRows(done), d.manifest.manifestDigest, RowOfDocument(d));
  }

  lemma OneMoreEvent(s: Catalog, done: map<Digest, Event>, e: Event)
    requires e.eventDigest !in done
    ensures WithEvent(Grown(s, map[], done), e) == Grown(s, map[], done[e.eventDigest := e])
  {
    EventRowsOneMore(done, e);
    OverlayOne(s.events, EventRows(done), e.eventDigest, RowOfEvent(e));
  }

  lemma EventFitsLater(s: Catalog, done: map<Digest, Event>, e: Event)
    requires ValidBundle(Bundle(map[], done)) && ValidEvent(e) && e.eventDigest !in done
    requires EventsFit(s, Bundle(map[], done))
    ensures EventFits(s.events + EventRows(done), e) <==> EventsFit(s, Bundle(map[], done[e.eventDigest := e]))
  {
    var more := Bundle(map[], done[e.eventDigest := e]);
    var now := s.events + EventRows(done);
    if EventFits(now, e) {
      forall f | f in more.events
        ensures EventFits(s.events, more.events[f])
      {
        if f == e.eventDigest && f !in s.events && e.core.kind.OutcomeEvent? {
          forall k | k in s.events
            ensures !IsOutcomeOf(s.events[k], RowOfEvent(e).episode)
          {
            if k in done {
              assert EventFits(s.events, done[k]);
            }
            assert k in now && now[k] == s.events[k];
          }
        }
      }
      forall f | f in done && e.eventDigest !in s.events && f !in s.events
        ensures e.core.kind.OutcomeEvent? ==> !IsOutcomeOf(RowOfEvent(done[f]), RowOfEvent(e).episode)
        ensures done[f].core.kind.OutcomeEvent? ==> !IsOutcomeOf(RowOfEvent(e), RowOfEvent(done[f]).episode)
      {
        assert f in now && now[f] == RowOfEvent(done[f]);
      }
    }
    if EventsFit(s, more) {
      assert EventFits(s.events, more.events[e.eventDigest]);
      forall k | k in now && e.eventDigest !in now && e.core.kind.OutcomeEvent?
        ensures !IsOutcomeOf(now[k], RowOfEvent(e).episode)
      {
        if k in done {
          assert k in more.events && e.eventDigest in more.events;
          if k in s.events {
            assert EventFits(s.events, more.events[k]);
          }
        }
      }
    }
  }

  lemma EventsFitFewer(s: Catalog, fewer: map<Digest, Event>, b: Bundle)
    requires forall e :: e in fewer ==> e in b.events && b.events[e] == fewer[e]
    requires EventsFit(s, b)
    ensures EventsFit(s, Bundle(map[], fewer))
  {
    var part := Bundle(map[], fewer);
    forall e | e in part.events
      ensures EventFits(s.events, part.events[e])
    {
      assert EventFits(s.events, b.events[e]);
    }
  }

  // The steps of an import

  /** `done` is the part of `whole` that is not in `todo`. */
  ghost predicate Split<V>(whole: map<Digest, V>, todo: set<Digest>, done: map<Digest, V>) {
    && done.Keys !! todo && done.Keys + todo == whole.Keys
    && forall k :: k in done ==> done[k] == whole[k]
  }

  lemma SplitDone<V>(whole: map<Digest, V>, done: map<Digest, V>)
    requires Split(whole, {}, done)
    ensures done == whole
  {
  }

  lemma SplitMore<V>(whole: map<Digest, V>, todo: set<Digest>, done: map<Digest, V>, k: Digest)
    requires Split(whole, todo, done) && k in todo
    ensures k in whole && k !in done
    ensures Split(whole, todo - {k}, done[k := whole[k]])
  {
  }

  lemma DocumentsStart(s: Catalog, documents: map<Digest, Document>)
    ensures Split(documents, documents.Keys, map[])
    ensures s == Grown(s, map[], map[]) && DocumentsFit(s, Bundle(map[], map[]))
  {
    assert s.bodies + BodyRows(map[]) == s.bodies;
  }

  lemma DocumentsStep(s: Catalog, documents: map<Digest, Document>, todo: set<Digest>, done: map<Digest, Document>,
                      d: Digest)
    requires ValidBundle(Bundle(documents, map[]))
    requires Split(documents, todo, done) && d in todo && DocumentsFit(s, Bundle(done, map[]))
    ensures d in documents && d !in done && ValidDocument(documents[d])
    ensures Split(documents, todo - {d}, done[d := documents[d]])
    ensures WithDocument(Grown(s, done, map[]), documents[d]) == Grown(s, done[d := documents[d]], map[])
    ensures DocumentFits(Grown(s, done, map[]), documents[d]) <==>
            DocumentsFit(s, Bundle(done[d := documents[d]], map[]))
    ensures !DocumentFits(Grown(s, done, map[]), documents[d]) ==> !DocumentsFit(s, Bundle(documents, map[]))
  {
    hide DocumentFits, Grown, WithDocument, ValidDocument;
    SplitMore(documents, todo, done, d);
    OneMoreDocument(s, done, documents[d]);
    var more := Bundle(done[d := documents[d]], map[]);
    assert DocumentsFit(s, more) ==> DocumentFits(s, more.documents[d]);
    assert forall k :: k in done ==> DocumentFits(s, Bundle(done, map[]).documents[k]);
    assert DocumentsFit(s, Bundle(documents, map[])) ==> DocumentFits(s, Bundle(documents, map[]).documents[d]);
  }

  lemma EventsStart(s: Catalog, events: map<Digest, Event>)
    ensures Split(events, events.Keys, map[])
    ensures s == Grown(s, map[], map[]) && EventsFit(s, Bundle(map[], map[]))
  {
    assert s.bodies + BodyRows(map[]) == s.bodies;
  }

  lemma EventsStep(s: Catalog, b: Bundle, todo: set<Digest>, done: map<Digest, Event>, e: Digest)
    requires ValidBundle(b)
    requires Split(b.events, todo, done) && e in todo && EventsFit(s, Bundle(map[], done))
    ensures e in b.events && e !in done && ValidEvent(b.events[e])
    ensures Split(b.events, todo - {e}, done[e := b.events[e]])
    ensures WithEvent(Grown(s, map[], done), b.events[e]) == Grown(s, map[], done[e := b.events[e]])
    ensures EventFits(Grown(s, map[], done).events, b.events[e]) <==>
            EventsFit(s, Bundle(map[], done[e := b.events[e]]))
    ensures !EventFits(Grown(s, map[], done).events, b.events[e]) ==> !EventsFit(s, b)
  {
    SplitMore(b.events, todo, done, e);
    OneMoreEvent(s, done, b.events[e]);
    EventFitsLater(s, done, b.events[e]);
    if EventsFit(s, b) {
      EventsFitFewer(s, done[e := b.events[e]], b);
    }
  }

  lemma EventsFitSame(s: Catalog, b: Bundle)
    ensures EventsFit(s, Bundle(map[], b.events)) <==> EventsFit(s, b)
  {
  }

  /** An import is its checks, then its documents, then its events. */
  lemma ImportSteps(s: Catalog, b: Bundle)
    requires ValidBundle(b)
    ensures ValidBundle(Bundle(b.documents, map[]))
    ensures ImportInto(s, b) == if Accepts(s, b) then After(s, b) else s
    ensures Accepts(s, b) <==>
              KindsAgree(s, b) && DocumentsResolve(s, b) && EventsAgree(s, b) && DocumentsFit(s, b) && EventsFit(s, b)
    ensures DocumentsFit(s, Bundle(b.documents, map[])) <==> DocumentsFit(s, b)
    ensures EventsFit(Grown(s, b.documents, map[]), b) <==> EventsFit(s, b)
    ensures Grown(Grown(s, b.documents, map[]), map[], b.events) == After(s, b)
  {
    hide DocumentsFit, EventsFit, KindsAgree, DocumentsResolve, EventsAgree, BodyRows, DocumentRows, After;
    GrownTwice(s, b);
    SamePart(s, b);
    SameEvents(s, Grown(s, b.documents, map[]), b);
  }

  lemma NoRows()
    ensures BodyRows(map[]) == map[] && DocumentRows(map[]) == map[]
  {
  }

  lemma GrownTwice(s: Catalog, b: Bundle)
    ensures Grown(Grown(s, b.documents, map[]), map[], b.events) == After(s, b)
  {
    hide BodyRows, DocumentRows;
    NoRows();
    var between := Grown(s, b.documents, map[]);
    assert between.bodies + BodyRows(map[]) == between.bodies;
    assert between.manifests + DocumentRows(map[]) == between.manifests;
    assert between.events == s.events;
  }

  lemma SamePart(s: Catalog, b: Bundle)
    ensures DocumentsFit(s, Bundle(b.documents, map[])) <==> DocumentsFit(s, b)
  {
    var part := Bundle(b.documents, map[]);
    if DocumentsFit(s, b) {
      assert forall d :: d in part.documents ==> DocumentFits(s, b.documents[d]);
    }
    if DocumentsFit(s, part) {
      assert forall d :: d in b.documents ==> DocumentFits(s, part.documents[d]);
    }
  }

  lemma SameEvents(s: Catalog, t: Catalog, b: Bundle)
    requires s.events == t.events
    ensures EventsFit(s, b) <==> EventsFit(t, b)
  {
  }

  // The invariant

  predicate Resolves(s: Catalog, r: Ref) {
    r.digest in s.manifests && s.manifests[r.digest].kind == r.kind
  }

  ghost predicate DocumentInPlace(s: Catalog, d: Digest)
    requires d in s.manifests
  {
    var row := s.manifests[d];
    && ValidDocument(row.document)
    && row == RowOfDocument(row.document)
    && row.document.manifest.asset.digest == d
    && row.bodyDigest in s.bodies && s.bodies[row.bodyDigest] == RowOfBody(row.document)
    && forall r :: r in DocumentReferences(row.document) ==> Resolves(s, r)
  }

  ghost predicate EventInPlace(s: Catalog, e: Digest)
    requires e in s.events
  {
    var row := s.events[e];
    && ValidEvent(row.event)
    && row == RowOfEvent(row.event)
    && row.event.eventDigest == e
    && (forall r :: r in EventReferences(row.event) ==> Resolves(s, r))
    && (row.kind.OutcomeEvent? ==>
          && Resolves(s, row.event.core.outcome.value)
          && var body := s.manifests[row.event.core.outcome.value.digest].document.body;
             body.Outcome? && body.episode == row.event.core.episode.value)
  }

  /** What every catalog an import built satisfies. */
  ghost predicate Sound(s: Catalog) {
    && (forall k :: k in s.bodies ==> k.OfBody? && s.bodies[k] == BodyRow(KindOf(k.body), k.body))
    && (forall d :: d in s.manifests ==> DocumentInPlace(s, d))
    && (forall e :: e in s.events ==> EventInPlace(s, e))
    && (forall e, f :: e in s.events && f in s.events && e != f && s.events[e].kind.OutcomeEvent? ==>
          !IsOutcomeOf(s.events[f], s.events[e].episode))
  }

  // Export

  function Next(s: Catalog, r: Ref): set<Ref> {
    if r.digest in s.manifests then DocumentReferences(s.manifests[r.digest].document) else {}
  }

  ghost predicate Trail(s: Catalog, path: seq<Ref>) {
    |path| > 0 && forall i :: 0 <= i < |path| - 1 ==> path[i + 1] in Next(s, path[i])
  }

  /** `r` is a root, or is reached from one through dependencies and previous revisions. */
  ghost predicate Reached(s: Catalog, roots: set<Ref>, r: Ref) {
    exists path :: Trail(s, path) && path[0] in roots && path[|path| - 1] == r
  }

  ghost predicate Exportable(s: Catalog, roots: set<Ref>) {
    forall r :: Reached(s, roots, r) ==> Resolves(s, r)
  }

  ghost predicate DigestReached(s: Catalog, roots: set<Ref>, d: Digest) {
    exists r :: Reached(s, roots, r) && r.digest == d
  }

  ghost function Closure(s: Catalog, roots: set<Ref>): map<Digest, Document> {
    map d | d in s.manifests && DigestReached(s, roots, d) :: s.manifests[d].document
  }

  predicate Covered(e: Event, documents: map<Digest, Document>) {
    forall r :: r in EventReferences(e) ==> r.digest in documents
  }

  function CoveredEvents(s: Catalog, documents: map<Digest, Document>): map<Digest, Event> {
    map e | e in s.events && Covered(s.events[e].event, documents) :: s.events[e].event
  }

  /** The documents reached from the roots, and the events that speak of nothing else. */
  ghost function ExportOf(s: Catalog, roots: set<Ref>, includeEvents: bool): Bundle {
    var documents := Closure(s, roots);
    Bundle(documents, if includeEvents then CoveredEvents(s, documents) else map[])
  }

  lemma RootsReached(s: Catalog, roots: set<Ref>)
    ensures forall r :: r in roots ==> Reached(s, roots, r)
  {
    forall r | r in roots
      ensures Reached(s, roots, r)
    {
      assert Trail(s, [r]);
    }
  }

  lemma NextReached(s: Catalog, roots: set<Ref>, r: Ref)
    requires Reached(s, roots, r)
    ensures forall n :: n in Next(s, r) ==> Reached(s, roots, n)
  {
    var path :| Trail(s, path) && path[0] in roots && path[|path| - 1] == r;
    forall n | n in Next(s, r)
      ensures Reached(s, roots, n)
    {
      var longer := path + [n];
      assert Trail(s, longer) && longer[0] in roots && longer[|longer| - 1] == n;
    }
  }

  predicate Visited(documents: map<Digest, Document>, r: Ref) {
    r.digest in documents && documents[r.digest].manifest.asset.kind == r.kind
  }

  /** What the worklist keeps: everything collected or pending is reached, and every root and every
      reference of a collected document is collected or pending. */
  ghost predicate Collecting(s: Catalog, roots: set<Ref>, documents: map<Digest, Document>, pending: seq<Ref>) {
    && CollectedReached(s, roots, documents)
    && (forall p :: p in pending ==> Reached(s, roots, p))
    && (forall p :: p in roots ==> p in pending || Visited(documents, p))
    && ReferencesCovered(documents, pending)
  }

  ghost predicate CollectedReached(s: Catalog, roots: set<Ref>, documents: map<Digest, Document>) {
    forall d :: d in documents ==>
          d in s.manifests && documents[d] == s.manifests[d].document && DigestReached(s, roots, d)
  }

  ghost predicate ReferencesCovered(documents: map<Digest, Document>, pending: seq<Ref>) {
    forall d, p :: d in documents && p in DocumentReferences(documents[d]) ==> p in pending || Visited(documents, p)
  }

  lemma CollectingStarts(s: Catalog, roots: set<Ref>, pending: seq<Ref>)
    requires forall r :: r in pending <==> r in roots
    ensures Collecting(s, roots, map[], pending)
  {
    RootsReached(s, roots);
  }

  lemma FewerLeft(all: set<Digest>, documents: map<Digest, Document>, d: Digest, document: Document)
    requires d in all && d !in documents
    ensures all - documents[d := document].Keys < all - documents.Keys
  {
    assert d !in all - documents[d := document].Keys;
  }

  /** A pending reference that does not resolve, or resolves to another kind, ends the export. */
  lemma CollectingReference(s: Catalog, roots: set<Ref>, documents: map<Digest, Document>, pending: seq<Ref>)
    requires Sound(s) && Collecting(s, roots, documents, pending) && pending != []
    ensures !Resolves(s, pending[|pending| - 1]) ==> !Exportable(s, roots)
    ensures pending[|pending| - 1].digest in documents ==>
              (Resolves(s, pending[|pending| - 1]) <==>
               documents[pending[|pending| - 1].digest].manifest.asset.kind == pending[|pending| - 1].kind)
    ensures documents.Keys <= s.manifests.Keys
  {
    var r := pending[|pending| - 1];
    if r.digest in documents {
      assert DocumentInPlace(s, r.digest);
    }
  }

  lemma CollectingSkips(s: Catalog, roots: set<Ref>, documents: map<Digest, Document>, pending: seq<Ref>)
    requires Collecting(s, roots, documents, pending) && pending != []
    requires Visited(documents, pending[|pending| - 1])
    ensures Collecting(s, roots, documents, pending[..|pending| - 1])
  {
    forall p | p in pending && !Visited(documents, p)
      ensures p in pending[..|pending| - 1]
    {
    }
  }

  lemma CollectingGoesOn(s: Catalog, roots: set<Ref>, documents: map<Digest, Document>, pending: seq<Ref>,
                         more: seq<Ref>)
    requires Sound(s) && Collecting(s, roots, documents, pending) && pending != []
    requires Resolves(s, pending[|pending| - 1]) && pending[|pending| - 1].digest !in documents
    requires forall p :: p in more <==> p in Next(s, pending[|pending| - 1])
    ensures var r := pending[|pending| - 1];
            Collecting(s, roots, documents[r.digest := s.manifests[r.digest].document], pending[..|pending| - 1] + more)
  {
    var r := pending[|pending| - 1];
    var document := s.manifests[r.digest].document;
    StoredKind(s, r);
    hide Sound, Reached, Visited, DocumentReferences, ReferencesCovered, CollectedReached;
    NextReached(s, roots, r);
    CollectedMore(s, roots, documents, r);
    StillPending(documents, document, pending, more);
    ReferencesStayCovered(documents, document, pending, more);
  }

  lemma CollectedMore(s: Catalog, roots: set<Ref>, documents: map<Digest, Document>, r: Ref)
    requires CollectedReached(s, roots, documents) && Reached(s, roots, r) && r.digest in s.manifests
    ensures CollectedReached(s, roots, documents[r.digest := s.manifests[r.digest].document])
  {
    hide Reached;
  }

  lemma ReferencesStayCovered(documents: map<Digest, Document>, document: Document, pending: seq<Ref>, more: seq<Ref>)
    requires pending != [] && ReferencesCovered(documents, pending)
    requires pending[|pending| - 1].digest !in documents
    requires document.manifest.asset.kind == pending[|pending| - 1].kind
    requires forall p :: p in more <==> p in DocumentReferences(document)
    ensures ReferencesCovered(documents[pending[|pending| - 1].digest := document], pending[..|pending| - 1] + more)
  {
    StillPending(documents, document, pending, more);
  }

  lemma StoredKind(s: Catalog, r: Ref)
    requires Sound(s) && Resolves(s, r)
    ensures s.manifests[r.digest].document.manifest.asset.kind == r.kind
  {
    assert DocumentInPlace(s, r.digest);
  }

  lemma StillPending(documents: map<Digest, Document>, document: Document, pending: seq<Ref>, more: seq<Ref>)
    requires pending != []
    requires pending[|pending| - 1].digest !in documents
    requires document.manifest.asset.kind == pending[|pending| - 1].kind
    ensures var documents' := documents[pending[|pending| - 1].digest := document];
            forall p :: p in pending || Visited(documents, p) ==>
                  p in pending[..|pending| - 1] + more || Visited(documents', p)
  {
    forall p | p in pending && p != pending[|pending| - 1]
      ensures p in pending[..|pending| - 1]
    {
    }
  }

  lemma {:induction false} TrailStaysVisited(s: Catalog, roots: set<Ref>, documents: map<Digest, Document>,
                                             path: seq<Ref>)
    requires forall d :: d in documents ==> d in s.manifests && documents[d] == s.manifests[d].document
    requires forall p :: p in roots ==> Visited(documents, p)
    requires forall d, p :: d in documents && p in DocumentReferences(documents[d]) ==> Visited(documents, p)
    requires Trail(s, path) && path[0] in roots
    ensures Visited(documents, path[|path| - 1])
  {
    if |path| > 1 {
      var shorter := path[..|path| - 1];
      TrailStaysVisited(s, roots, documents, shorter);
      assert path[(|path| - 2) + 1] in Next(s, path[|path| - 2]);
      assert shorter[|shorter| - 1] == path[|path| - 2];
    }
  }

  /** When nothing is pending, what was collected is the closure. */
  lemma CollectedIsClosure(s: Catalog, roots: set<Ref>, documents: map<Digest, Document>)
    requires Sound(s) && Collecting(s, roots, documents, [])
    ensures documents == Closure(s, roots)
    ensures Exportable(s, roots)
  {
    forall r | Reached(s, roots, r)
      ensures r.digest in documents && Resolves(s, r)
    {
      ReachedIsVisited(s, roots, documents, r);
    }
    hide Sound, CollectedReached, ReferencesCovered, Closure, Reached;
    SameClosure(s, roots, documents);
  }

  lemma SameClosure(s: Catalog, roots: set<Ref>, documents: map<Digest, Document>)
    requires CollectedReached(s, roots, documents)
    requires forall r :: Reached(s, roots, r) ==> r.digest in documents
    ensures documents == Closure(s, roots)
  {
    forall d | d in s.manifests && DigestReached(s, roots, d)
      ensures d in documents
    {
      var r :| Reached(s, roots, r) && r.digest == d;
    }
  }

  lemma ReachedIsVisited(s: Catalog, roots: set<Ref>, documents: map<Digest, Document>, r: Ref)
    requires Sound(s) && Collecting(s, roots, documents, []) && Reached(s, roots, r)
    ensures Visited(documents, r) && Resolves(s, r)
  {
    hide Sound, Next;
    var path :| Trail(s, path) && path[0] in roots && path[|path| - 1] == r;
    TrailStaysVisited(s, roots, documents, path);
    StoredKind(s, r.(kind := s.manifests[r.digest].kind));
  }

  // Lookups

  function OutcomeEventOf(s: Catalog, episode: Ref): set<Digest> {
    set e | e in s.events && IsOutcomeOf(s.events[e], Some(episode.digest))
  }
}

/** The records of src/aar/asset_models.py. A digest is the content it was taken from, and a sorted tuple is a set. */
module AssetModels {
  import opened JsonValues

  datatype Kind = AgentKind | EpisodeKind | EvaluationKind | OutcomeKind | ProposalKind

  datatype Digest =
    | External(text: string)
    | OfBody(body: Body)
    | OfManifest(kind: Kind, bodySchema: Kind, bodyDigest: Digest, previous: Option<Ref>, dependencies: set<Ref>)
    | OfEvent(core: EventCore)

  datatype Ref = Ref(kind: Kind, digest: Digest)

  /** A body with its references; `detail` is the rest of its content. */
  datatype Body =
    | AgentFingerprint(detail: string)
    | Episode(agent: Ref, selected: set<Ref>, used: set<Ref>, detail: string)
    | Evaluation(evaluator: Ref, subjects: set<Ref>, detail: string)
    | Outcome(episode: Ref, evidence: set<Ref>, detail: string)
    | Proposal(basedOn: set<Ref>, detail: string)

  function KindOf(body: Body): Kind {
    match body
    case AgentFingerprint(_) => AgentKind
    case Episode(_, _, _, _) => EpisodeKind
    case Evaluation(_, _, _) => EvaluationKind
    case Outcome(_, _, _) => OutcomeKind
    case Proposal(_, _) => ProposalKind
  }

  predicate ValidBody(body: Body) {
    match body
    case AgentFingerprint(_) => true
    case Episode(agent, selected, used, _) => agent.kind.AgentKind? && used <= selected
    case Evaluation(evaluator, subjects, _) => evaluator.kind.AgentKind? && subjects != {}
    case Outcome(episode, _, _) => episode.kind.EpisodeKind?
    case Proposal(basedOn, _) => basedOn != {}
  }

  function BodyDependencies(body: Body): set<Ref> {
    match body
    case AgentFingerprint(_) => {}
    case Episode(agent, selected, used, _) => {agent} + selected + used
    case Evaluation(evaluator, subjects, _) => {evaluator} + subjects
    case Outcome(episode, evidence, _) => {episode} + evidence
    case Proposal(basedOn, _) => basedOn
  }

  datatype Manifest = Manifest(
    asset: Ref, bodySchema: Kind, bodyDigest: Digest, previous: Option<Ref>, dependencies: set<Ref>,
        manifestDigest: Digest)

  datatype Document = Document(manifest: Manifest, body: Body)

  /** `AdaptiveAssetManifest.manifest_is_content_bound`. */
  predicate ValidManifest(m: Manifest) {
    && m.asset.digest == m.manifestDigest
    && (m.previous.Some? ==> m.previous.value.kind == m.asset.kind)
    && m.manifestDigest == OfManifest(m.asset.kind, m.bodySchema, m.bodyDigest, m.previous, m.dependencies)
  }

  /** `AdaptiveAssetDocument.document_matches_manifest`; a body's schema version follows its kind. */
  predicate ValidDocument(d: Document) {
    && ValidManifest(d.manifest) && ValidBody(d.body)
    && d.manifest.asset.kind == KindOf(d.body)
    && d.manifest.bodySchema == KindOf(d.body)
    && d.manifest.bodyDigest == OfBody(d.body)
    && d.manifest.dependencies == BodyDependencies(d.body)
  }

  function IssueDocument(body: Body, previous: Option<Ref>): Document {
    var kind := KindOf(body);
    var digest := OfManifest(kind, kind, OfBody(body), previous, BodyDependencies(body));
    Document(Manifest(Ref(kind, digest), kind, OfBody(body), previous, BodyDependencies(body), digest), body)
  }

  function DocumentReferences(d: Document): set<Ref> {
    d.manifest.dependencies + (if d.manifest.previous.Some? then {d.manifest.previous.value} else {})
  }

  datatype Attribution = Attribution(source: Ref, target: Ref, relation: string, weightMilli: int)

  datatype EventKind = Selection | Disclosure | Use | OutcomeEvent | AttributionEvent

  datatype EventCore = EventCore(
    kind: EventKind, operation: string, agent: Option<Ref>, episode: Option<Ref>, assets: set<Ref>,
    outcome: Option<Ref>, attributions: set<Attribution>, detailsDigest: Digest)

  datatype Event = Event(core: EventCore, eventDigest: Digest)

  /** `AdaptiveAssetEvent.event_is_explicit_and_content_bound`. */
  predicate ValidEvent(e: Event) {
    && (e.core.agent.Some? ==> e.core.agent.value.kind.AgentKind?)
    && (e.core.episode.Some? ==> e.core.episode.value.kind.EpisodeKind?)
    && (e.core.kind in {Selection, Disclosure, Use} ==> e.core.assets != {})
    && (e.core.kind.OutcomeEvent? ==>
          e.core.episode.Some? && e.core.outcome.Some? && e.core.outcome.value.kind.OutcomeKind?)
    && (!e.core.kind.OutcomeEvent? ==> e.core.outcome.None?)
    && (e.core.kind.AttributionEvent? ==> e.core.attributions != {})
    && e.eventDigest == OfEvent(e.core)
  }

  function Given(r: Option<Ref>): set<Ref> {
    if r.Some? then {r.value} else {}
  }

  function EventReferences(e: Event): set<Ref> {
    e.core.assets + Given(e.core.agent) + Given(e.core.episode) + Given(e.core.outcome)
    + (set a | a in e.core.attributions :: a.source) + (set a | a in e.core.attributions :: a.target)
  }

  /** A bundle's sorted tuples of unique digests, as maps from those digests. */
  datatype Bundle = Bundle(documents: map<Digest, Document>, events: map<Digest, Event>)

  ghost predicate ValidBundle(b: Bundle) {
    && (forall d :: d in b.documents ==> ValidDocument(b.documents[d]) && b.documents[d].manifest.asset.digest == d)
    && (forall e :: e in b.events ==> ValidEvent(b.events[e]) && b.events[e].eventDigest == e)
  }

  /** What is issued passes its own validators, when the body does and the previous revision is of its kind. */
  lemma IssuedIsValid(body: Body, previous: Option<Ref>)
    requires ValidBody(body) && (previous.Some? ==> previous.value.kind == KindOf(body))
    ensures ValidDocument(IssueDocument(body, previous))
  {
  }

  /** A valid document is the one issued for its body and previous revision: its digest binds it. */
  lemma DigestBindsDocument(d: Document, e: Document)
    requires ValidDocument(d) && ValidDocument(e)
    ensures d == IssueDocument(d.body, d.manifest.previous)
    ensures d.manifest.asset.digest == e.manifest.asset.digest ==> d == e
  {
  }
}
